# Walkman tag-to-playback controller, modelled in Dafny

The walkman is a MicroPython program for a Raspberry Pi Pico with an MFRC522 RFID reader and an SSD1306 display. When a tag is placed on the reader it looks the tag up in a fixed table of playlists and asks a Home Assistant hub to play the matching URL on a media player. Every ten seconds it also asks the hub what the player is doing and shows that on the display.

This project models one iteration of the program's main loop. It covers:

- **Ticks** (`ticks.dfy`): MicroPython's `time.ticks_diff`, the wraparound-safe difference of two millisecond counter values. The counter period is 2^30, as on the Pico's 32-bit port.
- **TagReader** (`tag_reader.dfy`): `get_tag_id`. The two transceiver calls are given as their status results. The UID bytes are folded with the source's own `(id << 8) | byte`, where `|` is a recursive bitwise OR on unbounded naturals. The fold is proved equal to the big-endian value of the bytes, and that value converts back to the bytes.
- **Display** (`display.dfy`): `update_display`, with a drawn screen recorded as a `Frame` (heading, title line, subtitle line). Lines over 21 characters are cut to 18 characters plus `"..."`. It also has the decimal rendering used in `"ID: <id>"`.
- **Mappings** (`mappings.dfy`): the `MUSIC_MAPPINGS` table and its first-match scan.
- **Dispatcher** (`dispatcher.dfy`): `play_music_for_tag` as a pure function of the hub's reply to the play call.
- **Reconciler** (`reconciler.dfy`): the state update of `check_media_player_status`, given the parsed reply of the state query.
- **Presence** (`presence.dfy`): the debouncer in `main` (`last_tag_id`, `last_tag_read_time`, `tag_processed`, the 5000 ms grace window). It has lemmas over finite runs of reads: one dispatch per session, and re-arming after the tag has been away.
- **Walkman** (`walkman.dfy`): the status-poll gate, a pure `TickStep` for one loop iteration, and the class `Controller`. The class's fields are the program's globals, and its `Tick` method performs the iteration in place. `Controller.Tick` is proved equal to `TickStep`.

The outside world enters as parameters of each tick:

- the reader's answer (`ReaderReply`);
- the current `ticks_ms()` value;
- the hub's reply to the play call (`PostReply`: a status code, or None when WiFi was down or the request raised);
- the parsed state reply (`Option<StateReply>`: None when WiFi was down, the request raised or the body did not parse).

Every frame drawn is appended to `frames`. Every URL handed to the play call is appended to `playRequests`.

Four behaviours of `production/main.py` that are easy to misread, all modelled as the code has them:

- The reconciler sets `is_playing` on every 200 reply, even one without a `media_title` (lines 186-187). It only overwrites the title and artist, and redraws, when a title is present (lines 190-198).
- `last_status_check_time` is stamped whenever the interval has elapsed, even when WiFi is down and the check returns early (lines 169-171, 221-223).
- No event marks a tag's removal. A missed read more than the timeout after the last sighting only clears `tag_processed` (lines 242-243).
- `play_music_for_tag` returns a boolean. The failure screen is `update_display(name, "Failed to play", False)`, so its heading is `Ready:` (lines 123-126).

A consequence of the wrapping tick difference is stated as a lemma (`Presence.ReturnAfterHalfPeriodIgnored`). Suppose the debouncer has been re-armed and the tag dispatched last comes back between half a tick period (about 6.2 days) and a full period after its last read. The difference then comes out negative, and that return is not dispatched.

## Model

| member | source | states |
|---|---|---|
| `Ticks.TicksDiff` | production/main.py:221 | the difference lies in [-2^29, 2^29), is congruent to `a - b` modulo 2^30, and equals `a - b` when that is already in range |
| `Ticks.DiffAfterAdd` | production/main.py:231 | measuring a point less than half a period after (or before) `t` gives back exactly that distance |
| `Ticks.DiffAfterHalfPeriod` | production/main.py:231 | a point between half a period and a full period after `t` comes out as the negative value `delta - 2^30` |
| `TagReader.OrIntoClearedBits` | production/main.py:103 | OR-ing a value below 2^k into `x * 2^k` is addition |
| `TagReader.ShiftOrByte` | production/main.py:103 | shifting `x` left by 8 bits and OR-ing in a byte `b` gives `x * 256 + b` |
| `TagReader.BigEndianBound` | production/main.py:101-105 | the folded id of an n-byte UID is below 256^n |
| `TagReader.BytesOfBigEndian` | production/main.py:101-103 | the UID bytes are recovered from the folded id and the UID length |
| `TagReader.BigEndianOfBytes` | production/main.py:101-103 | every value below 256^n is the fold of its own n big-endian bytes |
| `TagReader.FoldUid` | production/main.py:101-105 | the shift-and-OR loop returns the big-endian value of the UID, most significant byte first |
| `TagReader.TagIdOf` | production/main.py:92-105 | an id is produced exactly when both `request` and `anticoll` report OK; it is the big-endian value of the UID and below 256^n |
| `TagReader.GetTagId` | production/main.py:92-105 | the early-return status checks followed by the fold give exactly `TagIdOf` |
| `Display.Truncate` | production/main.py:82-88 | every shown line has at most 21 characters; a line of at most 21 is unchanged; a longer one becomes its first 18 characters plus `"..."` |
| `Display.TruncateIdempotent` | production/main.py:82-87 | cutting an already cut line changes nothing |
| `Display.Render` | production/main.py:74-88 | heading `Now Playing:` exactly when playing, otherwise `Ready:`; each line is drawn as `Truncate` gives it: whole up to 21 characters, otherwise its first 18 characters plus `"..."`, so both lines fit 21 characters |
| `Display.Decimal` | production/main.py:128 | `str(n)`: non-empty, all decimal digits, and a leading `0` only in the text `"0"` of zero |
| `Display.DecimalRoundTrip` | production/main.py:128 | the number is read back from its decimal text, so distinct ids give distinct `ID:` lines |
| `Display.DecimalUnique` | production/main.py:128 | any digit string without a leading zero (other than `"0"`) whose value is `n` is `Decimal(n)`, so `Decimal` is exactly `str(n)`, zero included |
| `Mappings.FirstMatch` | production/main.py:110-111 | None exactly when no entry has the id; otherwise the index of an entry with the id before which no entry has it |
| `Mappings.FindMapping` | production/main.py:110-126 | the scan with early return yields the first matching entry |
| `Mappings.ShippedIdsDistinct` | production/main.py:21-27 | the shipped table lists no tag id twice |
| `Dispatcher.PlaySucceeded` | production/main.py:153 | the play call succeeds exactly for a 200 or 201 reply; a raised request or WiFi down is a failure |
| `Dispatcher.Dispatch` | production/main.py:107-129 | no play request exactly when the id is unmapped, and then the screen is `Unknown Tag` / `ID: <id>` (not playing) with the globals untouched; otherwise the first matching entry's URL is requested and its name becomes the song name, `Loading...` is drawn and then `Playing` or `Failed to play`; `is_playing` becomes true only on success and is otherwise kept; the result is true exactly when mapped and the call succeeded |
| `Reconciler.Reconcile` | production/main.py:182-201 | a missing or non-200 reply changes nothing; on 200 `is_playing` is `state == "playing"` with or without a title; song name and artist are overwritten only when `media_title` is present, the artist with `""` when `media_artist` is missing |
| `Reconciler.ReconcileFrames` | production/main.py:190-198 | a frame is drawn exactly when a 200 reply carries a title, and at most one |
| `Reconciler.FrameShowsReconciled` | production/main.py:190-198 | the frame drawn shows exactly the globals just written |
| `Reconciler.ReconcileIdempotent` | production/main.py:182-198 | applying the same reply twice gives the same globals as applying it once |
| `Reconciler.TitledReplyOverrides` | production/main.py:186-198 | a 200 reply with a title determines the globals regardless of what was there before |
| `Presence.Observe` | production/main.py:227-243 | a detected tag is dispatched exactly when its id differs from `last_tag_id` or the timeout has passed since the last read with `tag_processed` false; a dispatch sets `last_tag_id` to the id and `tag_processed`; a detected tag always stamps `last_tag_read_time`; a missed read changes neither `last_tag_id` nor `last_tag_read_time` and clears `tag_processed` only past the timeout |
| `Presence.Run` | production/main.py:225-243 | a run of reads dispatches at most once per read |
| `Presence.RunAppend` | production/main.py:214-243 | running two stretches of reads one after the other gives the same final debouncer state and the same dispatches, in order, as running their concatenation |
| `Presence.MissesDispatchNothing` | production/main.py:227-243 | any run of missed reads dispatches nothing and leaves `last_tag_id` and `last_tag_read_time` as they were; it can only clear `tag_processed`, and does clear it once some miss is more than the timeout after the last sighting |
| `Presence.RearmAfterAbsence` | production/main.py:230-243 | after any run of misses, one of them more than the timeout after the last sighting, a tag returning also more than the timeout after it and then staying seated is dispatched exactly once over the whole run |
| `Presence.NoRedispatchWhileSeated` | production/main.py:230-243 | after a dispatch, while the same tag keeps being read with no miss more than the timeout after its last read, nothing is dispatched and the tag stays the processed one |
| `Presence.OneArrivalPerSession` | production/main.py:227-243 | a session that starts with a dispatching read and continues seated dispatches exactly that tag, once |
| `Presence.RearmAfterDeparture` | production/main.py:230-243 | a miss more than the timeout after the last read, followed by a tag (same or another) also more than the timeout after it, starts a new session with exactly one dispatch |
| `Presence.MissWithinGraceIsNoop` | production/main.py:242-243 | a miss within the grace window leaves the debouncer as it was |
| `Presence.ReturnAfterHalfPeriodIgnored` | production/main.py:230-231 | the tag dispatched last, back between half a period and a full period after its last read, is not dispatched |
| `Walkman.PollTimes` | production/main.py:220-223 | the gate rule picks at most one check per tick; `Walkman.CheckTimesArePollTimes` shows its picks are exactly the loop's checks |
| `Walkman.PollsSpaced` | production/main.py:220-223 | of the ticks the gate rule picks, the first is more than the interval after the previous stamp, and each is more than the interval after the one before |
| `Walkman.TickStep` | production/main.py:214-243 | the poll stamp moves to `now` exactly when the check is due; the debouncer state is `Observe`'s; the play requests change exactly when the debouncer dispatched a mapped tag, and then gain exactly the URL of that tag's first matching entry |
| `Walkman.TickStepPlayback` | production/main.py:220-243 | frames are only appended; with neither a due check nor a dispatch the globals and the screen are unchanged; a due check alone gives `Reconcile` of the old globals and its frame; a dispatch alone gives `Dispatch` of the old globals and its frames; with both, `Dispatch` starts from what `Reconcile` left and its frames follow the reconciler's |
| `Walkman.UrlOf` | production/main.py:110-128 | a dispatched tag hands the play call one URL, that of the first entry with its id, and none exactly when it is unmapped |
| `Walkman.RequestedUrls` | production/main.py:107-129 | a series of dispatches hands the play call at most one URL each |
| `Walkman.RequestedUrlsAppend` | production/main.py:107-129 | the URLs handed for two series of dispatches in a row are those of the first followed by those of the second |
| `Walkman.FirstIteration` | production/main.py:214-243 | the first iteration of a run leaves the state the rest of the run starts from, with `Observe`'s debouncer state and the URL of the tag it dispatched added; the debouncer's run of reads splits at the same point |
| `Walkman.RequestsFollowArrivals` | production/main.py:214-243 | over any run of iterations the debouncer state is the one its reads alone give, and the play requests added are exactly the URLs of the debouncer's dispatches, in order, regardless of the hub's replies and the reconciler |
| `Walkman.RequestsBoundedByArrivals` | production/main.py:214-243 | a run of iterations adds no more play requests than the debouncer dispatches |
| `Walkman.SeatedTagSendsNoMoreRequests` | production/main.py:225-243 | while the tag dispatched last stays seated, the loop sends no further play request |
| `Walkman.CheckTimesArePollTimes` | production/main.py:220-223 | over any run of iterations the loop runs the reconciler at exactly the ticks the gate rule picks from the iterations' ticks, and the final poll stamp is the last of them, or the old stamp when there is none |
| `Walkman.LoopChecksSpaced` | production/main.py:220-223 | over any run of iterations, the loop's first reconciler run is more than the interval after the previous stamp, and each later run more than the interval after the one before |
| `Walkman.FirstTagAfterBootArrives` | production/main.py:32-35 | from the start-up globals a tag is dispatched on its first read unless its id is 0 and the timeout has not passed |
| `Walkman.JazzScenario` | production/main.py:225-240 | the Jazz tag held for two ticks with a 200 reply yields one request for its URL and a final screen `Now Playing:` / `Jazz Playlist` / `Playing` |
| `Walkman.UnknownTagScenario` | production/main.py:128 | tag 999 yields no request and the screen `Ready:` / `Unknown Tag` / `ID: 999` |
| `Walkman.Controller.constructor` | production/main.py:29-37 | the globals start as the program declares them, and the splash screen that `main` draws at line 209 is the one frame drawn |
| `Walkman.Controller.UpdateDisplay` | production/main.py:74-90 | exactly one frame, the rendered one, is appended |
| `Walkman.Controller.CallHomeAssistantToPlayMusic` | production/main.py:131-164 | the URL is recorded as requested and the result is `PlaySucceeded` of the reply |
| `Walkman.Controller.PlayMusicForTag` | production/main.py:107-129 | the globals, frames, requests and result become those of `Dispatch`; the debouncer and poll stamp are untouched |
| `Walkman.Controller.CheckMediaPlayerStatus` | production/main.py:166-204 | the playback globals become `Reconcile` of the reply, its frame is appended, nothing else changes |
| `Walkman.Controller.Tick` | production/main.py:214-245 | one loop iteration in place leaves the controller in exactly the state `TickStep` gives |

## Left out

- WiFi association, the reconnect in the loop and `connect_to_wifi` with its LED and retries (production/main.py:49-72, 215-218). This is network plumbing. A dropped connection shows up only as a None reply to the play call or the state query.
- HTTP transport: URL and header construction, the JSON payload, `urequests`, `response.text` and `close()` (production/main.py:131-164, 173-184). They are foreign calls, replaced by the reply values given to each tick.
- `json.loads` and the shape of the body. A reply is given already parsed, with string-valued attributes. A `media_title` that is JSON null or not a string would make `update_display` raise after `is_playing`, `current_song_name` and `current_artist` were written; that path is not modelled.
- The MFRC522 `request` and `anticoll` calls and the SSD1306 `fill`, `text` and `show` calls (production/main.py:75-97). This is hardware I/O: only their status results and the text strings drawn are kept.
- `time.sleep`, the unbounded `while True`, and `print` diagnostics. A single iteration is modelled, and runs are finite sequences of iterations.
- Hardware initialisation and the WiFi and hub configuration constants (production/main.py:10-19, 39-47).
- A crash in the hardware drivers. The program does not catch one, with one exception: a display error during the reconciler's redraw (production/main.py:198) is swallowed by the `except` at production/main.py:203-204, after `is_playing`, `current_song_name` and `current_artist` have been written, so that frame is not drawn. Neither path is modelled: every redraw is taken to succeed.
- Walkman.Controller.CallHomeAssistantToPlayMusic: `playRequests` records every URL handed to the play call, including when WiFi is down and no POST is actually sent. A None reply does not tell them apart: it stands both for WiFi down, when no POST is sent (production/main.py:133-135), and for a request that raised, when one may have been (production/main.py:162-164).
- Ticks.TicksDiff: the tick period is fixed at 2^30. MicroPython ports with another period are not modelled.
