# Client-side session tracker: a verified model

This project models the browser-side session tracker of a web analytics
client, together with the small rule-based helpers around it. It covers:

- **The session tracker** (`src/session/SystemTracker.ts`). It keeps a page
  table with one record per path and a session-wide event log. An event equal
  to the one just recorded is dropped. On navigation it closes the old page
  and opens the new one. It keeps a scroll high-water mark, merges repeated
  errors by a 32-bit rolling hash, and builds the end-of-session payload.
- **The older tracker** (`src/SystemTracker.ts`). It writes into an `Events`
  object it is handed. It has the same event dedup, no navigation handling,
  and a scroll rule of its own.
- **The tracker manager** (`src/session/TrackerManager.ts`). It reads the
  configuration and turns tracking off on excluded paths. Exclusion is either
  literal equality or a `:name` route template. Otherwise it builds the
  session object, the replay recorder and a tracker, and ends the session
  through the tracker.
- **The bot detector's scoring** (`src/botDetector/initDetect.ts`).
- **The variants manager** (`src/Variants.ts`). It gives `editor-<index>` ids
  to editable elements that have none, and records and applies HTML
  variations by id.

## How the model is built

State that the source updates in place is a `class` with the same fields:

- `SessionTracker.SystemTracker` and `LegacyTracker.SystemTracker` for the two trackers;
- `Interfaces.Events` for the session object they share;
- `Manager.TrackerManager` for the manager;
- `Variants.VariantsManager` for the variants manager.

Each tracker's fields, plus the part of the `Events` object it writes, are
also captured as a value: `SessionModel.TrackerState` and
`LegacyModel.LegacyState`. Each step of the source is a function on that value
(`RecordEvent`, `HandleNavigation`, `Scroll`, `TrackError`, `EndSession`, …).
Each class method is proved to leave the object in exactly the state that its
step function computes from the old state, and to keep the invariant
(`Valid()`). The properties the source promises are then lemmas about the step
functions, for example:

- at most one record per path, and always one for the current path;
- the click counters add up to the clicks in the log;
- every logged event carries a page and its time since the session start;
- tracked errors have distinct hashes and counts of at least 1;
- the scroll mark is never negative and is the current record's.

Loops in the source are methods with loop invariants, proved against a
function:

- the hash loop of `generateErrorHash` (`ErrorHash.GenerateErrorHash`);
- the `forEach` of `assignEditorIds` (`Variants.VariantsManager.AssignEditorIds`).

The checklist of `detect` has no loop. It is a run of `if` steps, each of which
adds a reason and its points. `BotDetector.Detect` performs it as a sequence of
`Note` steps, and is proved equal to the reference function
`BotDetector.Result`.

Conventions of the model:

- Every reading of `Date.now()` is a parameter of its own, so the two readings
  inside `recordEvent` of the older tracker can differ, as they can in the
  browser.
- Comparing `JSON.stringify` strings is modelled as structural equality of the
  event records.
- The source's `type` field is called `kind`.
- Event payloads are maps from keys to scalar values.
- The event `trackError` logs for a new error is the tracked error object
  itself, shared with the error list. The model logs a reference to the list
  entry (`ErrorAt(k)`). Reading the log, or writing it into the payload,
  shows that entry as it is now (`SessionModel.ShownLog`). So a later repeat
  of the error raises the count that the logged event shows too.
- Strings are sequences of Unicode scalar values, with an explicit UTF-16
  encoding wherever the source counts code units (`charCodeAt`, `length`).
- JavaScript's 32-bit wrap-around (`|0`) is modelled as ECMAScript ToInt32.
- Browser inputs are parameters:
  - the stored user id;
  - the environment snapshot;
  - the fingerprint outcome: the visitor id, or `String(error)` of what the
    library threw;
  - the detector's signals;
  - the scroll percentage and its scroll height;
  - the elements selected from the document.

## Where the code and its description differ

- **The manager's import.** The manager imports `./SystemTracker`, which is
  `src/session/SystemTracker.ts`. That tracker's constructor takes options,
  but the manager passes it its session object
  (`src/session/TrackerManager.ts:3,60`). As written, the tracker ignores the
  manager's object, builds its own, and reads neither a business id nor a
  user id from the options. So the object `getSessionJSON` returns never
  receives an event. The manager is modelled as written; see the finding
  below. The evidently intended pairing with the older tracker, which does
  share the object, is modelled beside it.
- **The visited-pages count.** It counts the distinct URLs of `navigation`
  events, but neither tracker ever records such an event; navigation records
  `page_exit` and `page_view`. So `total_pages_visited` in the payload of
  `endSession` is 1 unless some caller of the public `recordEvent`
  (`src/session/SystemTracker.ts:258`) logs `navigation` events itself. The
  summary of `getEvents` counts the entry URL among the navigation URLs
  instead, and the two counts can differ (`SessionModel.VisitedCountsAgree`).
- **Scroll records after a revisit.** The scroll record of a revisited page
  can drop. Navigation resets the scroll mark but not the stored percentage,
  so the first scroll of a new visit overwrites a higher percentage from an
  earlier visit (`SessionModel.ScrollRecordCanDrop`).
- **The older tracker's `endSession`.** It does not clear `lastEvent`. So
  `session_end` is not logged again when it equals the previous event
  (`LegacyModel.EndRepeatSkipped`, `LegacyModel.EndTwiceLogsOnce`). Its
  scroll handler writes the mark to the current record on every scroll, even
  a lower one.
- **A failed fingerprint is tracked as an error.** The `catch` of
  `initFingerprint` calls `console.error`, which the constructor has already
  replaced by the error tracker (`src/session/SystemTracker.ts:61,202,541-549`).
  So a fingerprint failure logs a `console_error` event
  (`SessionModel.FingerprintFailureTracked`).
- **`isBotAsync` before detection.** The detector is created only by
  `initBotDetection` (`src/session/SystemTracker.ts:210`). Before that,
  `isBotAsync` without a stored result calls `detect` on `undefined`, and the
  promise is rejected. The model answers `None` then
  (`SessionModel.IsBotAsyncOnce`).
- **The manager's session object.** It has no `errors` field, and its user
  info has no `fingerprint` or `isBot` field. The model gives it an empty
  error list and absent (`None`) values for those two fields.

## Model

| member | source | states |
|---|---|---|
| Text.IntToString | src/session/SystemTracker.ts:563 | `String(i)`: at least one character, and a leading minus sign exactly for negatives |
| Text.IntToStringInjective | src/session/SystemTracker.ts:563 | two integers render to the same decimal string iff they are equal |
| Text.Utf16 | src/session/SystemTracker.ts:559-560 | the UTF-16 code units `charCodeAt` enumerates; at least one unit per character |
| Text.Utf16Append | src/session/SystemTracker.ts:557-560 | encoding a concatenation is concatenating the encodings |
| Text.Utf16Ascii | src/session/SystemTracker.ts:337 | an ASCII string has one code unit per character, equal to its code |
| Text.Contains | src/botDetector/initDetect.ts:29 | a one-word regular expression test holds iff the word occurs at some position |
| Text.LowerAsciiString | src/botDetector/initDetect.ts:28 | `toLowerCase` on ASCII letters: same length, each letter shifted by 32, other characters kept |
| Text.Prefix | src/session/SystemTracker.ts:336 | `slice(0, n)`: a prefix of length `min(n, length)` |
| Text.Join | src/session/SystemTracker.ts:543 | `join(' ')`: empty for no parts, the part itself for one |
| Text.JoinPair | src/session/SystemTracker.ts:543 | `join(' ')` of two parts is the first, the separator, the second |
| Text.JoinCons | src/session/SystemTracker.ts:543 | joining a part before a non-empty list is the part, the separator, and the rest joined |
| Interfaces.ZeroPage | src/session/SystemTracker.ts:114-120 | the record `initPage` pushes: the path, all counters zero, no events |
| Interfaces.NewSession | src/session/SystemTracker.ts:97-104 | a new session on a path: entry and exit are the path, nothing recorded |
| Interfaces.DeviceTypeOf | src/session/SystemTracker.ts:86-88 | `mobile` iff the user agent contains `mobi` or `android` in any letter case |
| Interfaces.UserInfoOf | src/session/SystemTracker.ts:82-96 | the user info copies browser, platform, language, screen and time zone from the environment |
| Interfaces.Events.constructor | src/session/interfaces.ts:66-75 | the session object holds exactly the values it was built with |
| Interfaces.CountKind | src/session/SystemTracker.ts:387-388 | `filter(e => e.type === kind).length`: never more than the number of events |
| Interfaces.CountKindAppend | src/session/SystemTracker.ts:387-388 | appending an event raises the count of its own kind by one and no other |
| Interfaces.NavigationUrls | src/session/SystemTracker.ts:389-391 | exactly the set of `data.url \|\| ''` over the `navigation` events of the log; no larger than their number |
| Interfaces.NavigationUrlsAppend | src/session/SystemTracker.ts:389-391 | appending an event adds its URL key exactly when it is a `navigation` event |
| Pages.FindPage | src/session/SystemTracker.ts:285-289 | `pages.find` by path: the index of the first record with the path, or none iff no record has it |
| Pages.FindPageUnique | src/session/SystemTracker.ts:285-289 | with one record per path, `find` returns the only record for the path |
| Pages.PageIndex | src/session/SystemTracker.ts:285-289 | `getCurrentPage` of both trackers: the index of the first record with the path, when one exists |
| Pages.InitPage | src/session/SystemTracker.ts:108-122 | afterwards a record for the path exists; the table is unchanged if one existed, else a zeroed record is appended; paths stay unique |
| Pages.ReplaceKeepsPaths | src/session/SystemTracker.ts:275-280 | updating a record in place keeps which paths have records and their uniqueness |
| Pages.FindPageSamePaths | src/session/SystemTracker.ts:285-289 | `find` depends only on the paths of the records |
| Pages.SumClicksReplace | src/session/SystemTracker.ts:280 | replacing a record changes the click total by the difference of its counters |
| Pages.InitPageClicks | src/session/SystemTracker.ts:108-122 | `initPage` never changes the click total |
| ErrorHash.ToInt32 | src/session/SystemTracker.ts:561 | `x \| 0`: a signed 32-bit value congruent to `x` modulo 2^32 |
| ErrorHash.ToInt32Congruent | src/session/SystemTracker.ts:561 | ToInt32 depends only on its argument modulo 2^32 |
| ErrorHash.StepIsTimes31 | src/session/SystemTracker.ts:560-561 | `(h << 5) - h + c`, wrapped, is `31 * h + c` wrapped to 32 bits |
| ErrorHash.HashUnits | src/session/SystemTracker.ts:558-562 | the folded hash is always a signed 32-bit value |
| ErrorHash.HashIsWrappedPolynomial | src/session/SystemTracker.ts:558-562 | the folded hash is the polynomial sum of c_i * 31^(n-1-i), reduced to a signed 32-bit value |
| ErrorHash.ErrorHashIsPolynomial | src/session/SystemTracker.ts:556-564 | the hash string is the decimal rendering of that wrapped polynomial over the code units of `message\|stack` |
| ErrorHash.ErrorHashOfSignature | src/session/SystemTracker.ts:557 | the hash depends on the message and the stack only |
| ErrorHash.ErrorHashExample | src/session/SystemTracker.ts:556-564 | message `a` without a stack hashes to `3131` |
| ErrorHash.SameHashString | src/session/SystemTracker.ts:563 | two errors get the same hash string iff their 32-bit hashes are equal |
| ErrorHash.GenerateErrorHash | src/session/SystemTracker.ts:556-564 | the loop returns the hash string of the error |
| BotDetector.CanvasAnomaly | src/botDetector/initDetect.ts:112-130 | anomaly when there is no 2D context or the pixel sum is outside 50000..100000; none when the probe throws |
| BotDetector.Incognito | src/botDetector/initDetect.ts:135-144 | incognito iff the estimate API exists and reports a present, non-zero quota below 120 MiB |
| BotDetector.Vpn | src/botDetector/initDetect.ts:85-98 | `null` unless a check URL is configured and the probe answered; then the answer |
| BotDetector.Detect | src/botDetector/initDetect.ts:17-107 | the accumulated score, reasons, incognito and VPN results equal the reference result |
| BotDetector.ReportedScoreInRange | src/botDetector/initDetect.ts:102 | the reported score is `min(score, 100)` and lies in 0..100 |
| BotDetector.IsBotIffThreshold | src/botDetector/initDetect.ts:101-102 | `isBot` iff the raw score is at least 40, equivalently iff the reported score is |
| BotDetector.WebdriverOrAgentSuffices | src/botDetector/initDetect.ts:22-32 | a webdriver flag or a bot-like user agent alone flags a bot |
| BotDetector.MinorSignalsAlone | src/botDetector/initDetect.ts:34-82 | without webdriver, bot agent, canvas anomaly and VPN, the remaining signals stay below 40 |
| BotDetector.HardwareConcurrencyZeroIgnored | src/botDetector/initDetect.ts:46-51 | a concurrency of 0 or none reported does not fire |
| BotDetector.PermissionChecksExclusive | src/botDetector/initDetect.ts:59-69 | "notifications denied" and "permissions API missing" never both fire |
| BotDetector.ReasonsMatchScore | src/botDetector/initDetect.ts:17-98 | each reason adds at least 5 points; score 0 iff no reason |
| SessionModel.InitialFresh | src/session/SystemTracker.ts:47-60 | the constructor: one zeroed record for the path, nothing logged; start times are the clock; user id is the option's or else the stored one; no fingerprint, verdict or detector yet; the lead id and creation time of the new session object |
| SessionModel.InitialInv | src/session/SystemTracker.ts:47-122 | the constructed tracker satisfies the invariant |
| SessionModel.RecordEventEffect | src/session/SystemTracker.ts:258-283 | a repeat of the last event changes nothing; otherwise one event is appended to the log and to the current record, a click adds one to that record's counter, and nothing else changes |
| SessionModel.RecordEventFrame | src/session/SystemTracker.ts:258-283 | `recordEvent` touches only the page table, the log and `lastEvent` |
| SessionModel.RecordEventLast | src/session/SystemTracker.ts:270-272 | afterwards `lastEvent` is the event just offered |
| SessionModel.RecordEventKeepsInv | src/session/SystemTracker.ts:258-283 | `recordEvent` keeps the invariant and the current record |
| SessionModel.WithDurationEffect | src/session/SystemTracker.ts:157 | setting the duration changes that field of the current record only |
| SessionModel.ClosePageFields | src/session/SystemTracker.ts:155-163 | closing the page keeps path, times, scroll mark and errors; logs `page_exit` unless it repeats the last event |
| SessionModel.ClosePageDuration | src/session/SystemTracker.ts:157 | closing sets the current record's duration to `now - pageStartTime` and changes no path |
| SessionModel.ClosePageKeepsInv | src/session/SystemTracker.ts:151-163 | closing the page keeps the invariant |
| SessionModel.OpenPageEffect | src/session/SystemTracker.ts:165-187 | opening the new page: path, start times, scroll mark 0, exit URL, a record for it, `page_view` with the previous path always logged |
| SessionModel.OpenPageRecords | src/session/SystemTracker.ts:177-178 | opening keeps every path and duration, adding a record for the new path only if missing |
| SessionModel.OpenPageKeepsInv | src/session/SystemTracker.ts:165-187 | opening the new page keeps the invariant |
| SessionModel.SamePathIgnored | src/session/SystemTracker.ts:128-131 | navigating to the current path changes nothing |
| SessionModel.NavigationKeepsInv | src/session/SystemTracker.ts:128-188 | navigation keeps the invariant |
| SessionModel.NavigationFields | src/session/SystemTracker.ts:166-181 | after navigating to a new path: it is the path, its start time is `now`, the exit URL, scroll mark 0 |
| SessionModel.NavigationLog | src/session/SystemTracker.ts:158-187 | navigation logs `page_exit` (unless it repeats), then always `page_view`, which becomes the last event |
| SessionModel.NavigationPaths | src/session/SystemTracker.ts:151-188 | navigation keeps every path and adds one for the new path if it is missing |
| SessionModel.NavigationClosesPage | src/session/SystemTracker.ts:155-157 | the old page's record gets `duration = now - pageStartTime` |
| SessionModel.NavigationKeepsVisitedCount | src/session/SystemTracker.ts:151-188 | navigation never adds a `navigation` event, so the visited-URL set is unchanged |
| SessionModel.ScrollEffect | src/session/SystemTracker.ts:345-361 | a scroll with height ≤ 0 or no higher percentage changes nothing; otherwise mark and current record become the percentage; nothing logged |
| SessionModel.ScrollKeepsInv | src/session/SystemTracker.ts:345-361 | the scroll listener keeps the invariant |
| SessionModel.ScrollRecordMonotone | src/session/SystemTracker.ts:356-359 | once scrolled in this visit, the record's percentage equals the mark and never decreases |
| SessionModel.ScrollRecordCanDrop | src/session/SystemTracker.ts:356-359 | after navigation resets the mark, a lower first scroll overwrites a revisited page's higher percentage |
| SessionModel.ClickData | src/session/SystemTracker.ts:309-315 | the click payload: button, position, tag, and `text` as `innerText \|\| value`, absent when both are |
| SessionModel.ClickCounted | src/session/SystemTracker.ts:301-318 | a tracked, non-repeated click adds one click to the log and to the current record; any other click changes nothing |
| SessionModel.InputData | src/session/SystemTracker.ts:333-338 | the input payload: tag, `name \|\| id \|\| null`, the first 50 characters, the UTF-16 length of the value |
| SessionModel.InputCounted | src/session/SystemTracker.ts:325-338 | a recorded, non-repeated input adds one input event and no click; an untracked or empty one changes nothing |
| SessionModel.FindError | src/session/SystemTracker.ts:495 | `errors.find` by hash: the index of the first match, or none iff no error has the hash |
| SessionModel.FindErrorTracked | src/session/SystemTracker.ts:495 | with distinct hashes, `find` by an entry's own hash returns that entry |
| SessionModel.TrackErrorRepeat | src/session/SystemTracker.ts:495-498 | a known hash raises that entry's count by one and sets its time; other entries unchanged |
| SessionModel.TrackErrorRepeatLogsNothing | src/session/SystemTracker.ts:496-498 | a known hash changes the error list and nothing else: no event logged, `lastEvent` and the pages kept |
| SessionModel.TrackErrorNew | src/session/SystemTracker.ts:499-507 | a new hash appends the error with its hash and count 1, and offers one event of the given kind that refers to the new entry |
| SessionModel.TrackErrorNewLogged | src/session/SystemTracker.ts:499-507 | under the invariant the event for a new error is always logged, since the last event can never be it |
| SessionModel.NewErrorStep | src/session/SystemTracker.ts:499-507 | a new error keeps the invariant, is appended, and adds one log entry that refers to it |
| SessionModel.RepeatShowsInLog | src/session/SystemTracker.ts:492-508 | a new error then a repeat: one logged event, which shows count 1 after the first call and count 2 after the second, since it is the shared entry |
| SessionModel.TrackErrorTracks | src/session/SystemTracker.ts:492-508 | afterwards some entry carries the error's hash, and no entry is lost |
| SessionModel.TrackErrorFrame | src/session/SystemTracker.ts:492-508 | `trackError` changes only the errors, `lastEvent`, the page table and the log |
| SessionModel.TrackErrorKeepsInv | src/session/SystemTracker.ts:492-508 | tracking keeps the invariant |
| SessionModel.TrackErrorKeepsHashes | src/session/SystemTracker.ts:492-508 | every entry keeps the hash of its own message and stack |
| SessionModel.SameErrorTwice | src/session/SystemTracker.ts:492-508 | the same error twice leaves one entry with count 2 and the later time |
| SessionModel.FingerprintMirrored | src/session/SystemTracker.ts:193-200 | a visitor id is kept and copied into the user info; nothing else changes |
| SessionModel.FingerprintFailureTracked | src/session/SystemTracker.ts:201-204 | a failure is first tracked as a `console_error` with message `❌ Fingerprint error: <error>` and no stack, then both fingerprints become `null` |
| SessionModel.BotVerdictMirrored | src/session/SystemTracker.ts:209-215 | creates the detector; the stored result is the detector's (without a VPN check URL, so no VPN verdict); `isBot()` holds iff the score reaches 40, and the user info says the same |
| SessionModel.IsBotAsyncOnce | src/session/SystemTracker.ts:245-250 | a stored result is answered unchanged; without one it detects when the detector exists, and otherwise the call is rejected (no answer) and nothing changes; the user info is never touched |
| SessionModel.IsBotAsyncAfterDetection | src/session/SystemTracker.ts:245-250 | after `initBotDetection`, `isBotAsync` changes nothing and answers what `isBot()` answers |
| SessionModel.IdentityStepsKeepInv | src/session/SystemTracker.ts:193-250 | the fingerprint step, the detection step and `isBotAsync` keep the invariant |
| SessionModel.EndSessionLogsEnd | src/session/SystemTracker.ts:380-399 | `session_end` is always appended, since `lastEvent` was reset; the payload carries the log, each error event showing its error as it is now |
| SessionModel.EndSessionTotals | src/session/SystemTracker.ts:387-406 | the totals are the clicks and inputs of the log and one more than the distinct navigation URLs |
| SessionModel.EndSessionIdentity | src/session/SystemTracker.ts:370-403 | the user id is `userId ?? options.userId`, and the user info carries the fingerprint and a non-null verdict; also duration, entry and exit pages, errors |
| SessionModel.EndSessionClosesPage | src/session/SystemTracker.ts:375-378 | the current record gets `duration = now - pageStartTime`; the exit URL is the current path |
| SessionModel.EndStateKeepsInv | src/session/SystemTracker.ts:366-391 | `endSession` keeps the invariant |
| SessionModel.EndSessionClicksAgree | src/session/SystemTracker.ts:387 | the payload's click total equals the sum of the pages' counters |
| SessionModel.VisitedCountsAgree | src/session/SystemTracker.ts:389-391 | the two visited-pages counts agree iff the entry URL is not a navigation URL |
| SessionModel.GetEventsClicks | src/session/SystemTracker.ts:618-640 | the summary's click total equals the sum of the pages' counters; the session part carries the same totals; its exit page is the session's exit URL |
| SessionModel.GetEventsVisitedBounds | src/session/SystemTracker.ts:621-626 | the summary's pages-visited total is at least 1 and at most one more than the number of `navigation` events |
| SessionTracker.Window.constructor | src/session/SystemTracker.ts:125 | a window not yet patched, on the given path |
| SessionTracker.SystemTracker.constructor | src/session/SystemTracker.ts:47-72 | the tracker's state is the constructor's initial state, valid, on a new `Events` object |
| SessionTracker.SystemTracker.InitNavigationListener | src/session/SystemTracker.ts:124-148 | the history patch is installed only when the window has none; afterwards it has one |
| SessionTracker.SystemTracker.InitPage | src/session/SystemTracker.ts:108-122 | the page table becomes `initPage` of the old one; nothing else in the session changes |
| SessionTracker.SystemTracker.RecordEvent | src/session/SystemTracker.ts:258-283 | the new state is the model's `recordEvent` of the old one, and stays valid |
| SessionTracker.SystemTracker.HandleNavigation | src/session/SystemTracker.ts:128-132 | the new state is the model's navigation step: unchanged on the same path, else the page change |
| SessionTracker.SystemTracker.HandlePageChange | src/session/SystemTracker.ts:151-188 | the new state is closing then opening, in the model |
| SessionTracker.SystemTracker.Scroll | src/session/SystemTracker.ts:345-361 | the new state is the model's scroll step |
| SessionTracker.SystemTracker.Click | src/session/SystemTracker.ts:301-318 | the new state is the model's click step |
| SessionTracker.SystemTracker.Input | src/session/SystemTracker.ts:330-339 | the new state is the model's input step |
| SessionTracker.SystemTracker.TrackError | src/session/SystemTracker.ts:492-508 | the new state is the model's `trackError`, whose event for a new error refers to the shared entry; `errors` and `events.errors` stay equal; lead id and creation time unchanged |
| SessionTracker.SystemTracker.OnWindowError | src/session/SystemTracker.ts:511-524 | tracks the error built from the event's message, file, line, column and stack as kind `error` |
| SessionTracker.SystemTracker.OnRejection | src/session/SystemTracker.ts:527-537 | tracks the error built from the reason and its stack as kind `unhandled_rejection` |
| SessionTracker.SystemTracker.OnConsoleError | src/session/SystemTracker.ts:541-552 | tracks the space-joined arguments as kind `console_error` |
| SessionTracker.SystemTracker.InitFingerprint | src/session/SystemTracker.ts:193-206 | the new state is the model's fingerprint step, which on failure tracks the error through the wrapped `console.error` |
| SessionTracker.SystemTracker.InitBotDetection | src/session/SystemTracker.ts:209-215 | the new state is the model's detection step, which creates the detector |
| SessionTracker.SystemTracker.IsBot | src/session/SystemTracker.ts:241-243 | `botInfo?.isBot ?? false` |
| SessionTracker.SystemTracker.IsBotAsync | src/session/SystemTracker.ts:245-250 | state and answer are the model's `isBotAsync`: no answer before the detector exists |
| SessionTracker.SystemTracker.EndSession | src/session/SystemTracker.ts:366-412 | the new state and the returned payload are the model's `endSession` |
| SessionTracker.SystemTracker.GetEvents | src/session/SystemTracker.ts:618-643 | the summary is the model's `getEvents`: lead id, creation time, errors and user info of the session object, the totals, and the session with its entry and exit pages and totals |
| LegacyModel.Initial | src/SystemTracker.ts:13-25 | the constructor: start time from the clock, mark 0, no last event, a record for the window's path added only if missing |
| LegacyModel.InitialInv | src/SystemTracker.ts:13-25 | whatever the session held, the new tracker has a record for its path |
| LegacyModel.InitialTidy | src/SystemTracker.ts:13-25 | on an empty session the tracker starts tidy |
| LegacyModel.NewEvent | src/SystemTracker.ts:28 | the event carries no page; its relative time is taken from the start time |
| LegacyModel.StampInjective | src/SystemTracker.ts:37 | adding the page keeps events apart, so deduplicating before stamping is faithful |
| LegacyModel.RecordEventEffect | src/SystemTracker.ts:27-38 | a repeat changes nothing; else the event (without page) goes to the current record, its stamped copy to the log, and a click adds one to the counter |
| LegacyModel.RecordEventKeepsInv | src/SystemTracker.ts:27-38 | recording keeps the current record |
| LegacyModel.RecordEventKeepsTidy | src/SystemTracker.ts:27-38 | recording keeps the counters equal to the logged clicks, the log stamped and free of adjacent repeats |
| LegacyModel.ScrollEffect | src/SystemTracker.ts:77-82 | the mark becomes the larger of itself and the percentage; the current record's percentage becomes the mark on every scroll |
| LegacyModel.ScrollKeepsInv | src/SystemTracker.ts:77-82 | the scroll listener keeps the invariant |
| LegacyModel.ScrollKeepsTidy | src/SystemTracker.ts:77-82 | the scroll listener keeps the log and counters consistent |
| LegacyModel.ClickCounted | src/SystemTracker.ts:41-52 | a tracked, non-repeated click adds one click to the log and the current record; any other changes nothing |
| LegacyModel.InputCounted | src/SystemTracker.ts:55-75 | a recorded input adds one input event and no click; an untracked one changes nothing |
| LegacyModel.EndSessionEffect | src/SystemTracker.ts:85-102 | duration and exit URL set; `session_end` logged unless it equals the last event; payload with business id 1, the log, replay events, duration |
| LegacyModel.EndRepeatSkipped | src/SystemTracker.ts:93 | an end event equal to the last event is not logged |
| LegacyModel.EndTwiceLogsOnce | src/SystemTracker.ts:85-93 | two ends with equal clock readings log one end event |
| LegacyModel.EndSessionKeepsInv | src/SystemTracker.ts:85-93 | `endSession` keeps the invariant |
| LegacyModel.EndSessionKeepsTidy | src/SystemTracker.ts:85-93 | `endSession` keeps the log and counters consistent |
| LegacyTracker.SystemTracker.constructor | src/SystemTracker.ts:13-17 | the state is the constructor's on the given `Events` object; other fields of the object unchanged |
| LegacyTracker.SystemTracker.InitPage | src/SystemTracker.ts:19-25 | the page table becomes `initPage` of the old one |
| LegacyTracker.SystemTracker.RecordEvent | src/SystemTracker.ts:27-38 | the new state is the model's `recordEvent` |
| LegacyTracker.SystemTracker.Click | src/SystemTracker.ts:41-52 | the new state is the model's click step |
| LegacyTracker.SystemTracker.Input | src/SystemTracker.ts:62-72 | the new state is the model's input step |
| LegacyTracker.SystemTracker.Scroll | src/SystemTracker.ts:77-82 | the new state is the model's scroll step |
| LegacyTracker.SystemTracker.EndSession | src/SystemTracker.ts:85-102 | the new state and the payload are the model's `endSession` |
| LegacyTracker.SystemTracker.Close | src/SystemTracker.ts:86-91 | the duration and exit URL updates before `session_end` |
| PathExclusion.RunLength | src/session/TrackerManager.ts:73 | the longest `/`-free prefix: what `[^/]+` consumes after a colon |
| PathExclusion.IsExcluded | src/session/TrackerManager.ts:69-78 | excluded iff some pattern matches; an empty list excludes nothing |
| PathExclusion.Lits | src/session/TrackerManager.ts:73 | a colon-free string compiles to one literal per character |
| PathExclusion.CompilePrefix | src/session/TrackerManager.ts:73 | a colon-free prefix compiles to literals before the rest |
| PathExclusion.MatchesLits | src/session/TrackerManager.ts:73-74 | literals match exactly their own characters, then the rest |
| PathExclusion.LiteralTemplateIsEquality | src/session/TrackerManager.ts:72-76 | a colon-free pattern matches only the equal path |
| PathExclusion.MatchesParam | src/session/TrackerManager.ts:73-74 | `^[^/]+$` matches exactly the non-empty paths without `/` |
| PathExclusion.TrailingParam | src/session/TrackerManager.ts:72-74 | `prefix:name` matches iff the path is the prefix followed by one or more non-`/` characters |
| PathExclusion.UsersExample | src/session/TrackerManager.ts:72-74 | `/users/:id` excludes `/users/42`, not `/users/` nor `/users/42/edit` |
| PathExclusion.BareColonIsLiteral | src/session/TrackerManager.ts:73 | a colon at the end or before `/` is an ordinary character |
| Manager.UserIdOf | src/session/TrackerManager.ts:13 | `config.userId \|\| 'anonymous'`: never empty |
| Manager.ExcludePathsOf | src/session/TrackerManager.ts:14 | `config.excludePaths \|\| []`; without it nothing is excluded |
| Manager.ManagerSession | src/session/TrackerManager.ts:35-42 | the manager's session: entry and exit are the path, nothing recorded |
| Manager.TrackerManager.constructor | src/session/TrackerManager.ts:12-60 | nothing created on an excluded path; otherwise session object, recording and a fresh tracker that starts from its own session |
| Manager.TrackerManager.EndSession | src/session/TrackerManager.ts:84-94 | nothing without a tracker; otherwise stops recording and ends the tracker's session with the configured user id |
| Manager.TrackerManager.GetSessionJSON | src/session/TrackerManager.ts:104-106 | returns the manager's session object |
| Manager.SharedTrackerManager.constructor | src/session/TrackerManager.ts:12-60 | as intended: the older tracker writes into the manager's object and starts tidy |
| Manager.SharedTrackerManager.EndSession | src/session/TrackerManager.ts:84-94 | as intended: ends the older tracker's session on the shared object |
| Manager.SharedTrackerManager.GetSessionJSON | src/session/TrackerManager.ts:104-106 | returns the shared session object |
| Manager.FirstClickLogged | src/session/SystemTracker.ts:301-318 | a button click on a tracker with an empty log is logged |
| Manager.UnsharedSessionExample | src/session/TrackerManager.ts:60 | as written: a logged click never reaches the object `getSessionJSON` returns |
| Manager.SharedSessionExample | src/session/TrackerManager.ts:60 | as intended: the object `getSessionJSON` returns holds the logged click |
| Variants.GeneratedId | src/Variants.ts:33 | `editor-` followed by the decimal index |
| Variants.WithEditorIds | src/Variants.ts:30-36 | assigning ids keeps the number of elements |
| Variants.EditorIdsAssigned | src/Variants.ts:30-36 | every element ends with a non-empty id: its own, or `editor-<index>`; HTML kept |
| Variants.EditorIdsIdempotent | src/Variants.ts:30-36 | assigning ids twice equals assigning once |
| Variants.GeneratedIdsDistinct | src/Variants.ts:33 | two elements without id get different ids |
| Variants.IdsMayCollide | src/Variants.ts:32-33 | ids are not unique: an existing `editor-0` collides with a generated one |
| Variants.FindElement | src/Variants.ts:40 | `find` by editor id: the first match, or none iff no element has the id |
| Variants.EveryIdFound | src/Variants.ts:19-22 | after `init` every element's id finds it or an earlier element with the same id |
| Variants.VariantsManager.constructor | src/Variants.ts:15-16 | no elements, no variations |
| Variants.VariantsManager.Init | src/Variants.ts:19-22 | the elements are the collected ones with ids assigned |
| Variants.VariantsManager.AssignEditorIds | src/Variants.ts:30-36 | the loop leaves the elements with ids assigned; variations unchanged |
| Variants.VariantsManager.ApplyVariation | src/Variants.ts:39-48 | no match changes nothing; a match records the variation under the id, and replaces the first match's HTML when given |
| Variants.VariantsManager.GetVariations | src/Variants.ts:51-53 | returns the recorded variations |

## Left out

- DOM listener registration, `initListeners`/`startSession` and `handleBeforeUnload`. Each handler's state step is a method; the event plumbing that calls it is not modelled.
- The `setTimeout`/`WeakMap` debounce of the input listeners. It only decides when the handler runs; the handler's step is modelled.
- The monkey-patching of `history.pushState`/`replaceState` and the `popstate` listener. The patch is the `historyPatched` flag of `SessionTracker.Window`; a navigation is a call of `HandleNavigation` with the new path.
- `SessionTracker.SystemTracker.HandleNavigation`: navigation is modelled for any tracker. In the source, a tracker built on a window that is already patched never receives navigation callbacks, because `initNavigationListener` returns early (src/session/SystemTracker.ts:125). The model records this in the `listening` field, and no method consults it.
- Calling the original `console.error`. That is output only.
- `Math.round` of the scroll ratio. It is floating point, so the integer percentage and the scroll height are inputs.
- `Date.now()` and `new Date().toISOString()`. They are parameters.
- The formatting of `JSON.stringify`. Event comparison is structural equality, and key order is ignored.
- FingerprintJS, the `navigator` fields, the permissions and storage APIs, canvas drawing and the VPN fetch. They are foreign or asynchronous; their results are inputs.
- `localStorage`. The stored user id is a parameter; `setStoredUserId` and `clearStoredUserId` are never called by the core.
- `sendPayload`, `sendBeacon`/`fetch`, `sendBotStatus` and `console.log`. They are network and output I/O; `EndSession` returns the payload that would be sent.
- `showBotBlockMessage` and `handleBotView`. They are DOM rendering.
- `RegExp` entries in `excludePaths`. They defer to the JavaScript regular-expression engine.
- Regular-expression metacharacters other than the `:name` runs in a colon pattern. The source does not escape them; the model treats every other character as a literal, which agrees with the source for plain path characters.
- The replay recorder (src/RRWebTracker.ts). It is the `recorder`/`recording` flags; its events are the session's `rrwebEvents`. `startRecording` and `stopRecording` are not modelled separately: the constructor starts recording, and stopping is `EndSession`.
- `collectElements`. The elements selected from the document are the argument of `Init`.
- The effect of assigning `innerHTML` on an element's children. An element is its id and its HTML string.
- `SessionTracker.SystemTracker.Valid`: it does not include the property that each tracked error carries the hash of its own message and stack. Proving that property inside the class is too costly; `SessionModel.TrackErrorKeepsHashes` states it about the model instead.
- `SessionModel.InputData`: `slice(0, 50)` is modelled on characters, where the source slices UTF-16 code units. The two differ only when a character outside the Basic Multilingual Plane falls within the first 50 units.
- The arrays `getEvents` shares with the tracker. Its result is a shallow copy whose arrays are the tracker's own; the model returns a value, so later changes do not show in a summary taken earlier.
- The `JSON.stringify` comparison in `recordEvent` on an error event. The model compares the reference (`ErrorAt(k)`), the source the text of the error. They differ only for a payload with exactly the keys and values of a tracked error.
- The thrown value in the `catch` of `initFingerprint`. It is a parameter, `String(error)`.
- `console.log` of the bot verdict in the constructor. It is output only.
- Keys such as `__proto__`. Maps give them no special meaning.

## Findings

| source | as written | input that shows it | evidently intended | confidence | as-written member | corrected member |
|---|---|---|---|---|---|---|
| src/session/TrackerManager.ts:60 | the manager imports the session tracker and passes its session object as that tracker's options, so the tracker writes to a session object of its own | any non-excluded path followed by a click on a button: the tracker logs it, and `getSessionJSON` still returns `systemEvents == []` | the tracker of src/SystemTracker.ts, whose constructor takes the `Events` object and writes into it | not executed | Manager.UnsharedSessionExample | Manager.SharedSessionExample |
