# VWisper backend core in Dafny

VWisper is a push-to-talk dictation tool. The user holds a Control key. A
small "wave" window appears and the microphone records. When the key is
released, the audio goes to a speech-to-text service and the transcript is
typed into the focused application. This project models the Rust backend
that does this. It is built from these parts:

- **Key monitors** for Linux, macOS and Windows. Each turns the Control
  key's state into debounced press and release actions
  (`hotkeys.dfy`, `linux_monitor.dfy`, `macos_monitor.dfy`,
  `windows_monitor.dfy`).
- **Tauri commands**. These show, hide and toggle the wave window, which is
  guarded by a global counter. They also start, stop and cancel recording
  (`commands.dfy`).
- **Recorder**. It holds the recording flag, collects chunks from the
  capture channel and computes the level-meter frame (`recorder.dfy`).
- **Processor**. It runs the processing thread: the capture loop's mono
  downmix, the cancel flag, and everything that happens once recording ends.
  That covers outcome events, session records, collapsing the window,
  resetting the counter, typing the text and playing sounds
  (`processor.dfy`).
- **Storage**. These are the in-memory parts of the usage statistics
  (capped session log), the transcription history (capped, newest first,
  delete by id, word count) and the daily analytics (one record per day,
  sorted by date, last 30 kept) (`usage_stats.dfy`, `history.dfy`,
  `analytics.dfy`).
- **Device listing**. It computes friendly names, the `Display` text,
  de-duplication of display names and lookup by name (`devices.dfy`).

Shared helpers model the library functions the code relies on:
- `wrappers.dfy`: `Option` and `Result`.
- `seqs.dfy`: `position`, `remove`, keeping the last *n* elements.
- `strings.dfy`: `to_lowercase` on ASCII, `find`, UTF-8 length, decimal
  formatting, string order.
- `sorting.dfy`: the stable `sort_by`, proved sorted, a permutation and
  stable.

Global state with mutexes and statics becomes classes whose fields the
methods update. `Commands.AppState` owns the recorder, the processor and the
cancel flag. Each command method is proved against a pure function on a
snapshot (`Commands.Ui`). The properties (counter discipline, events
emitted, invariants kept) are then proved about those functions. The
monitors work the same way: each loop pass or callback is a method proved
equal to a `Step` function. The debounce spacing is proved over whole runs
of passes.

Inputs from the outside world are parameters:
- The clock is a natural number of milliseconds.
- The keys held are a sequence of keys.
- The success of creating, showing or closing a window is a boolean.
- The transcription service is replaced by its `Result`.
- Typing the text is replaced by a success flag.
- The audio host is replaced by the devices it enumerates.
- The capture channel is replaced by what each poll returns.

The struct literal in `record_session` (processor.rs:401-410) leaves out the
`transcribed_text` field that `RecordingSession` declares. The model fills
that field with the transcription. `record_session` also updates a loaded
copy of the usage statistics that it never saves; see "## Findings".

## Model

| member | source | states |
|---|---|---|
| Usage.SessionsAfterAdd | src-tauri/src/modules/storage/usage_stats.rs:81-85 | the session log never exceeds 1000 entries and its last entry is the new session; below the cap nothing is dropped, at the cap exactly the oldest entry is dropped |
| Usage.UsageStats.Default | src-tauri/src/modules/storage/usage_stats.rs:33-47 | the default statistics have every counter at 0, both timestamps at the current time and an empty log |
| Usage.UsageStats.Load | src-tauri/src/modules/storage/usage_stats.rs:49-57 | when the file reads back, `load` gives a separate object holding every field of the stored statistics |
| Usage.UsageStats.AddRecording | src-tauri/src/modules/storage/usage_stats.rs:67-86 | every total grows by the session's amounts; exactly one of the success and failure counters grows; the last use becomes the session time; the log is capped; successes plus failures stays equal to the total |
| History.NewestFirstIsPreorder | src-tauri/src/modules/storage/history.rs:79 | the newest-first comparator is a total preorder, so the sort is well defined |
| History.AddedSortedAndStable | src-tauri/src/modules/storage/history.rs:72-80 | after `add_entry` the log is ordered newest first, and entries with equal timestamps keep their relative order |
| History.AddedBounded | src-tauri/src/modules/storage/history.rs:72-80 | with a positive cap the log stays within it and holds the new entry; below the cap the result is a permutation of the old entries plus the new one |
| History.AddedToFullLogDropsNewest | src-tauri/src/modules/storage/history.rs:73-79 | trimming happens before sorting, so a full log loses its first (newest) entry, not its oldest |
| History.AddedToFullLogExample | src-tauri/src/modules/storage/history.rs:72-80 | an illustration of `AddedToFullLogDropsNewest`: a full log of two entries at times 5 and 3 that receives an entry at time 10 keeps the entries at 10 and 3 |
| History.TranscriptionHistory.constructor | src-tauri/src/modules/storage/history.rs:25-32 | the default history is empty with a cap of 1000 |
| History.TranscriptionHistory.AddEntry | src-tauri/src/modules/storage/history.rs:72-80 | the entries become push, trim to the cap, then sort newest first; the cap is unchanged |
| History.TranscriptionHistory.RecentEntries | src-tauri/src/modules/storage/history.rs:82-84 | the first `min(limit, len)` entries, in order |
| History.TranscriptionHistory.DeleteEntry | src-tauri/src/modules/storage/history.rs:86-93 | returns true exactly when some entry has the id; then only the first such entry is removed, otherwise nothing changes |
| History.NoWordsIffBlank | src-tauri/src/modules/storage/history.rs:96-102 | the word estimate is 0 exactly when the text is empty or all whitespace |
| History.CountWordsZeroIffBlank | src-tauri/src/modules/storage/history.rs:101 | `split_whitespace().count()` is 0 exactly for whitespace-only text |
| History.SingleWord | src-tauri/src/modules/storage/history.rs:96-102 | a non-empty text with no whitespace counts as one word |
| History.WordsSplitAtWhitespace | src-tauri/src/modules/storage/history.rs:101 | a whitespace character splits the count: the words on each side add up |
| Analytics.ByDateIsPreorder | src-tauri/src/modules/storage/analytics.rs:68 | comparing dates as strings is a total preorder |
| Analytics.UpsertExistingDay | src-tauri/src/modules/storage/analytics.rs:54-57 | when a record dated today exists, only the first one changes: one more recording, plus the duration and the characters |
| Analytics.UpsertNewDay | src-tauri/src/modules/storage/analytics.rs:58-65 | when no record is dated today, exactly one record `{today, 1, duration, characters}` is appended |
| Analytics.SumRecordingsPermutation | src-tauri/src/modules/storage/analytics.rs:96 | the recording total does not depend on the order of the days |
| Analytics.UpsertAddsOneRecording | src-tauri/src/modules/storage/analytics.rs:53-68 | before trimming, the update adds exactly one recording to the total |
| Analytics.UpdatedSortedAndTrimmed | src-tauri/src/modules/storage/analytics.rs:67-71 | after the update the days are sorted by date, at most 30 remain, and they are the last ones of the sorted list |
| Analytics.LastWeek | src-tauri/src/modules/storage/analytics.rs:86-90 | the averaging window is the last `min(len, 7)` days |
| Analytics.LastBusiest | src-tauri/src/modules/storage/analytics.rs:99-101 | `max_by_key` picks a day with the most recordings, and the last such day on ties |
| Analytics.AnalyticsData.constructor | src-tauri/src/modules/storage/analytics.rs:24-34 | the defaults: no days, average 0, total 0, "Monday", hour 9 |
| Analytics.AnalyticsData.UpdateWithRecording | src-tauri/src/modules/storage/analytics.rs:50-78 | the days become upsert, sort by date, keep the last 30; the weekly average, the monthly total and the most active day are recomputed; the peak hour is left alone |
| Analytics.AnalyticsData.CalculateAnalytics | src-tauri/src/modules/storage/analytics.rs:80-102 | with no days nothing changes; otherwise the average over the last 7 days, the total and the last busiest day are stored |
| Devices.BeforeStop | src-tauri/src/modules/audio/devices.rs:34 | the first piece of `split([',', ']'])`: the longest prefix without ',' or ']' |
| Devices.BeforeCardKey | src-tauri/src/modules/audio/devices.rs:33 | the piece of `split("CARD=")` that follows: the longest prefix that reaches no "CARD=" |
| Devices.FriendlyName | src-tauri/src/modules/audio/devices.rs:25-42 | the friendly name is one of the two fixed names or is no longer than the raw name |
| Devices.FriendlyNameCases | src-tauri/src/modules/audio/devices.rs:25-42 | "default" and "pulse", in any letter case, become "Default Device" and "PulseAudio"; names starting with "hw:" in any case go through `HwName`; every other name is shown unchanged |
| Devices.HwName | src-tauri/src/modules/audio/devices.rs:31-38 | the name shown for an "hw:" device is never longer than the raw name |
| Devices.HwNameCases | src-tauri/src/modules/audio/devices.rs:33-37 | with a first "CARD=" at `i`, the card name after it is shown; without "CARD=", the raw name is shown |
| Devices.FriendlyNameOfDefault | src-tauri/src/modules/audio/devices.rs:26-28 | an illustration of `FriendlyNameCases`: "DEFAULT" becomes "Default Device" |
| Devices.CardName | src-tauri/src/modules/audio/devices.rs:33-35 | the card name is a prefix of the text after "CARD=" |
| Devices.CardNameLongest | src-tauri/src/modules/audio/devices.rs:33-35 | the card name is the longest start of that text with no ',' or ']' and no further "CARD=" |
| Devices.DisplayText | src-tauri/src/modules/audio/devices.rs:16-23 | the `Display` text extends the display name, with " (Default)" appended exactly for the default device |
| Devices.ListedFromEnumeration | src-tauri/src/modules/audio/devices.rs:62-86 | every listed device is built from some readable device of the enumeration (`BuiltFrom`: its name, the friendly display name, default exactly when its name equals the default's, its config or the 44100 Hz stereo fallback), and there are no more of them than devices |
| Devices.ListedAllReadable | src-tauri/src/modules/audio/devices.rs:62-86 | when every name can be read, the list has one entry per device and entry j is built from device j: name, friendly display name, default exactly when the name equals the default's, and its config or the 44100 Hz stereo fallback |
| Devices.CountsAfter | src-tauri/src/modules/audio/devices.rs:91-92 | the count table stays equal to the occurrences of each name seen so far |
| Devices.Deduplicate | src-tauri/src/modules/audio/devices.rs:88-96 | device `i` is renamed to "name (k)" where `k` counts earlier devices with the same original name, and is left as it is when `k` is 0 |
| Devices.DedupStep | src-tauri/src/modules/audio/devices.rs:90-96 | one pass of the renaming loop keeps the renamed prefix and the count table correct |
| Devices.FirstOccurrenceKept | src-tauri/src/modules/audio/devices.rs:91-95 | the first device with a given name keeps it |
| Devices.SameNameSeparated | src-tauri/src/modules/audio/devices.rs:88-96 | two devices that share an original name always end up with different names |
| Devices.NamesCanCollide | src-tauri/src/modules/audio/devices.rs:88-96 | counts are kept per original name, so "Mic", "Mic", "Mic (1)" gives two devices named "Mic (1)" |
| Devices.GetInputDevices | src-tauri/src/modules/audio/devices.rs:55-99 | fails exactly when the host cannot enumerate; otherwise returns the readable devices, in order, with de-duplicated names |
| Devices.GetDeviceByName | src-tauri/src/modules/audio/devices.rs:101-110 | fails exactly when the host cannot enumerate; otherwise returns the first device whose name reads back equal, or none when no such device exists |
| Recorder.AudioState.constructor | src-tauri/src/modules/audio/recorder.rs:22-30 | a fresh state has a sender, is not recording and runs at 44100 Hz |
| Recorder.AudioState.StartGlobalRecording | src-tauri/src/modules/audio/recorder.rs:104-130 | a start while recording changes nothing and starts no second thread; without a sender it fails with "Audio sender unavailable"; otherwise one thread is started and recording is on |
| Recorder.AudioState.StopGlobalRecording | src-tauri/src/modules/audio/recorder.rs:183-191 | afterwards nothing is recording, and the sample rate and thread count are unchanged |
| Recorder.CollectAudioChunk | src-tauri/src/modules/audio/recorder.rs:208-225 | the buffer is what the polls used so far delivered, in order; collection stops early only once 2048 values are collected, and never before |
| Recorder.StepByLength | src-tauri/src/modules/audio/recorder.rs:235 | `step_by(k)` yields `ceil(len / k)` elements |
| Recorder.StepByIndex | src-tauri/src/modules/audio/recorder.rs:235 | element `i` of `step_by(k)` is input element `i * k` |
| Recorder.Stride | src-tauri/src/modules/audio/recorder.rs:233 | the stride `(len / 12).max(1)` is at least 1 |
| Recorder.Bar | src-tauri/src/modules/audio/recorder.rs:237 | each bar lies in [0, 1] |
| Recorder.PickedLength | src-tauri/src/modules/audio/recorder.rs:233-236 | with that stride, `take(12)` keeps `min(len, 12)` values |
| Recorder.BarsShape | src-tauri/src/modules/audio/recorder.rs:232-238 | there are `min(len, 12)` bars; bar `i` is the boosted, clipped amplitude of input `i * stride`, and lies in [0, 1] |
| Recorder.BoostedStaysLow | src-tauri/src/modules/audio/recorder.rs:240-243 | doubling quiet bars keeps them non-negative and below 0.04 |
| Recorder.SendAudioVisualization | src-tauri/src/modules/audio/recorder.rs:227-258 | empty input sends no frame; otherwise the frame holds the bars, all doubled when all are below 0.02, and a volume of ten times the mean absolute amplitude |
| Processor.AudioProcessor.constructor | src-tauri/src/modules/audio/processor.rs:99-103 | a new processor is idle |
| Processor.AudioProcessor.StartProcessing | src-tauri/src/modules/audio/processor.rs:105-113 | processing is on afterwards, and a thread is started only when it was off |
| Processor.AudioProcessor.StopProcessing | src-tauri/src/modules/audio/processor.rs:319-322 | processing is off afterwards |
| Processor.CancelFlag.constructor | src-tauri/src/modules/audio/processor.rs:19 | the cancel flag starts cleared |
| Processor.CancelFlag.Request | src-tauri/src/modules/audio/processor.rs:24-26 | a cancel request raises the flag |
| Processor.CancelFlag.Take | src-tauri/src/modules/audio/processor.rs:145 | `swap(false)` returns the old value and leaves the flag cleared |
| Processor.DownmixShape | src-tauri/src/modules/audio/processor.rs:135-137 | the downmix has `ceil(len / 2)` values: each is the mean of a pair, and a trailing odd value is kept as it is |
| Processor.CaptureSession | src-tauri/src/modules/audio/processor.rs:117-142 | the session audio is the downmix of every captured chunk, in order; exactly one meter update is sent per non-empty chunk, so none exactly when every chunk was empty |
| Processor.Collapse | src-tauri/src/modules/audio/processor.rs:153-166 | collapsing the window records nothing, resets no counter and emits only "wave-reset" |
| Processor.OutcomeCounts | src-tauri/src/modules/audio/processor.rs:145-288 | the steps before the collapse report exactly one outcome, reset nothing, and record a session exactly when the session was not cancelled and has audio |
| Processor.FinishCounts | src-tauri/src/modules/audio/processor.rs:145-313 | every ending reports exactly one outcome (completed, error or cancelled), resets the counter exactly once, and records a session exactly when not cancelled and audio was captured |
| Processor.FinishResetsAfterEvents | src-tauri/src/modules/audio/processor.rs:145-313 | the counter is reset after every event of the session has been emitted |
| Processor.FinishCancelled | src-tauri/src/modules/audio/processor.rs:145-173 | a cancelled session only reports "transcription-cancelled", collapses the window and resets the counter; it records, types and plays nothing |
| Processor.FinishStartedIffAudio | src-tauri/src/modules/audio/processor.rs:175-313 | "transcription-started" is emitted exactly when the session was not cancelled and has audio; without audio the outcome is an empty completion and nothing is recorded |
| Processor.FinishTranscribed | src-tauri/src/modules/audio/processor.rs:186-224 | a non-blank transcript is recorded as a success with its UTF-8 length and reported; after the reset it is typed, followed by the ending sound, or by the error sound when typing failed |
| Processor.FinishBlankOrFailed | src-tauri/src/modules/audio/processor.rs:225-287 | a blank transcript is recorded as a success marked "Empty transcription"; a failure is recorded as one, plays the error sound and reports the message; neither types anything |
| Processor.RecordSession | src-tauri/src/modules/audio/processor.rs:394-422 | as written: the session, with its UTF-8 length, is added to a freshly loaded copy of the usage statistics that is never saved, so the stored statistics are unchanged; today's analytics get the session with the audio length |
| Processor.RecordSessionLosesUsage | src-tauri/src/modules/audio/processor.rs:412-418 | one session recorded into empty stores leaves one day in the analytics, one recording in the discarded copy and none in the stored usage statistics |
| Processor.RecordSessionSaved | src-tauri/src/modules/audio/processor.rs:394-422 | as intended: the session reaches the stored usage statistics (log, totals, last use, consistency of the counters) as well as today's analytics |
| Commands.ShowWhenCountedOrVisible | src-tauri/src/modules/ui/commands.rs:60-84 | with the counter above 0, showing does nothing; with the window already visible, it only shrinks it to 80 by 80 and emits "wave-reset" |
| Commands.ShowCounts | src-tauri/src/modules/ui/commands.rs:86-138 | the counter rises, from 0 to 1, exactly when a hidden window is actually shown, and then the window is visible and the flag set; otherwise the counter is unchanged |
| Commands.ShowFails | src-tauri/src/modules/ui/commands.rs:56-144 | showing fails exactly when the counter is 0 and the window either cannot be created or is hidden and cannot be shown |
| Commands.HideCounts | src-tauri/src/modules/ui/commands.rs:147-172 | hiding clears the visible flag and lowers a positive counter by one, never below 0; a successful close removes the window; it fails exactly when a missing window cannot be created |
| Commands.StartRecordingEvents | src-tauri/src/modules/ui/commands.rs:327-351 | starting while recording does nothing; a successful start turns on recording and processing and emits "recording-started"; a start fails exactly when nothing is recording and there is no sender, and then changes nothing |
| Commands.StopRecordingEvents | src-tauri/src/modules/ui/commands.rs:354-375 | stopping while idle does nothing; otherwise recording and processing stop and "recording-stopped" is emitted |
| Commands.ToggleBothTable | src-tauri/src/modules/ui/commands.rs:387-414 | without a window nothing happens; visible and recording means stop then hide; visible and idle means start; hidden means show then start |
| Commands.StopAndProcessExpands | src-tauri/src/modules/ui/commands.rs:430-449 | always ends idle with "expand-for-processing" last and, when the window exists, at 200 by 80, even when nothing was recording |
| Commands.CancelEndsIdle | src-tauri/src/modules/ui/commands.rs:452-473 | cancelling leaves the counter at 0, recording off and the cancel flag raised; an existing window is hidden at 80 by 80 |
| Commands.CollapseEffects | src-tauri/src/modules/audio/processor.rs:153-166 | the collapse emits "wave-reset", sets the window to 200 by 80 and hides it; with no window it does nothing |
| Commands.FinishSessionResets | src-tauri/src/modules/audio/processor.rs:145-313 | however the session ends, the counter is 0, the cancel flag is cleared, the recorder is untouched, and an existing window is hidden at 200 by 80 |
| Commands.ShowKeepsInv | src-tauri/src/modules/ui/commands.rs:56-144 | showing keeps the counter at most 1, a missing window invisible, and processing in step with recording |
| Commands.HideKeepsInv | src-tauri/src/modules/ui/commands.rs:147-172 | hiding keeps that invariant |
| Commands.ToggleWindowKeepsInv | src-tauri/src/modules/ui/commands.rs:175-186 | toggling the window keeps that invariant |
| Commands.RecordingCommandsKeepInv | src-tauri/src/modules/ui/commands.rs:311-473 | start, stop, toggle recording, stop-and-process, cancel and counter reset keep that invariant |
| Commands.CombinedCommandsKeepInv | src-tauri/src/modules/ui/commands.rs:387-427 | the two combined window-and-recording commands keep that invariant |
| Commands.FinishSessionKeepsInv | src-tauri/src/modules/audio/processor.rs:145-313 | the end of the processing thread keeps that invariant |
| Commands.CancelledSessionEvents | src-tauri/src/modules/audio/processor.rs:145-173 | whenever the cancel flag is raised, the events that finishing the session adds are exactly "transcription-cancelled", followed by "wave-reset" only when the wave window exists |
| Commands.CancelCarriesOver | src-tauri/src/modules/ui/commands.rs:452-473 | the cancel flag is cleared only by the processing thread (processor.rs:145), so a cancel while idle followed by start and stop makes the next session end as cancelled: it emits "transcription-cancelled", no "transcription-started", and records and types nothing |
| Commands.AppState.constructor | src-tauri/src/modules/ui/commands.rs:18-26 | the application starts with no wave window, the counter at 0 and nothing recording |
| Commands.AppState.CreateWaveWindow | src-tauri/src/modules/ui/commands.rs:29-53 | creates an invisible 80 by 80 window |
| Commands.AppState.ShowWaveWindow | src-tauri/src/modules/ui/commands.rs:56-144 | the new state and the result are those of `Show`, and the invariant holds |
| Commands.AppState.HideWaveWindow | src-tauri/src/modules/ui/commands.rs:147-172 | the new state and the result are those of `Hide` |
| Commands.AppState.ToggleWaveWindow | src-tauri/src/modules/ui/commands.rs:175-186 | the new state and the result are those of `ToggleWindow` |
| Commands.AppState.ResetWaveWindowCounter | src-tauri/src/modules/ui/commands.rs:310-317 | the counter becomes 0 and the message reports its old value |
| Commands.AppState.StartRecording | src-tauri/src/modules/ui/commands.rs:327-351 | the new state and the result are those of `Start` |
| Commands.AppState.StopRecording | src-tauri/src/modules/ui/commands.rs:354-375 | the new state and the result are those of `Stop` |
| Commands.AppState.ToggleRecordingCommand | src-tauri/src/modules/ui/commands.rs:377-384 | the new state and the result are those of `ToggleRecording` |
| Commands.AppState.ToggleWaveWindowAndRecording | src-tauri/src/modules/ui/commands.rs:387-414 | the new state and the result are those of `ToggleBoth` |
| Commands.AppState.ShowWaveWindowAndStartRecording | src-tauri/src/modules/ui/commands.rs:417-427 | the new state and the result are those of `ShowAndStart`; a failed show skips the start |
| Commands.AppState.StopRecordingAndProcess | src-tauri/src/modules/ui/commands.rs:430-449 | the new state and the result are those of `StopAndProcess` |
| Commands.AppState.CancelProcessing | src-tauri/src/modules/ui/commands.rs:452-473 | the new state and the result are those of `Cancel` |
| Commands.AppState.Perform | src-tauri/src/modules/audio/processor.rs:153-169 | one step of the thread's ending applied to the window state |
| Commands.AppState.PerformAll | src-tauri/src/modules/audio/processor.rs:145-313 | the steps applied in order |
| Commands.AppState.FinishProcessing | src-tauri/src/modules/audio/processor.rs:145-313 | takes the cancel flag, returns the steps of `Finish` for that flag, and the new state is `FinishSession` of the old one |
| Hotkeys.Elapsed | src-tauri/src/platform/linux.rs:68 | `duration_since` is the difference of the two times, or 0 when the clock went backwards |
| Hotkeys.EdgeOf | src-tauri/src/platform/linux.rs:66-91 | a press is a change from released to pressed, a release the opposite, and no change is no edge |
| Hotkeys.DebounceStep | src-tauri/src/platform/macos.rs:20-36 | the observed state is always remembered; an edge fires exactly when the state changed and more than the window has passed, and only then does the action time become now |
| Hotkeys.DroppedEdgeNotRetried | src-tauri/src/platform/macos.rs:20-36 | an edge refused by the window is lost: the next observation of the same state fires nothing |
| Hotkeys.AcceptedTimesSpaced | src-tauri/src/platform/macos.rs:16-38 | over any run of observations, even with a clock that goes backwards, each accepted edge is more than the window after the previous one |
| LinuxMonitor.StepRemembersKey | src-tauri/src/platform/linux.rs:101 | every pass remembers whether Right Control was held |
| LinuxMonitor.StepCallsOnEdges | src-tauri/src/platform/linux.rs:66-99 | show-and-record is called only on a press, stop-and-process only on a release, each only more than 200 ms after the last accepted edge, which then moves to now |
| LinuxMonitor.StepAcceptedEdges | src-tauri/src/platform/linux.rs:66-99 | past the window a release always calls stop-and-process, and a press calls show-and-record exactly when fewer than 3 failures came before |
| LinuxMonitor.StepCountsErrors | src-tauri/src/platform/linux.rs:71-86 | a failed call raises the error count and a successful one clears it; a press skipped at 3 errors clears it, so it never exceeds 3 |
| LinuxMonitor.LeftControlIgnored | src-tauri/src/platform/linux.rs:62-63 | pressing only Left Control does nothing |
| LinuxMonitor.CallTimesSpaced | src-tauri/src/platform/linux.rs:61-103 | over a run of passes, the first call is more than 200 ms after the start and each later call more than 200 ms after the previous one |
| LinuxMonitor.CallTimesApart | src-tauri/src/platform/linux.rs:61-103 | any two calls are more than 200 ms apart |
| LinuxMonitor.Monitor.constructor | src-tauri/src/platform/linux.rs:54-56 | the loop starts released, with the clock at the start time and no errors |
| LinuxMonitor.Monitor.Tick | src-tauri/src/platform/linux.rs:61-103 | one loop pass changes the variables and calls the command as `Step` says |
| MacMonitor.FallbackIsSame | src-tauri/src/platform/macos.rs:43-75 | the `not(target_os = "macos")` fallback loop behaves exactly like the macOS loop; that loop is never compiled, since platform/mod.rs:1-2 includes macos.rs only on macOS |
| MacMonitor.StepCallsOnEdges | src-tauri/src/platform/macos.rs:16-38 | either Control key counts; show-and-record is called exactly on an accepted press and stop-and-process exactly on an accepted release, more than 25 ms after the last call |
| MacMonitor.CallTimesAccepted | src-tauri/src/platform/macos.rs:16-38 | the calls happen exactly at the edges the debounce accepts |
| MacMonitor.CallTimesSpaced | src-tauri/src/platform/macos.rs:16-38 | any two calls are more than 25 ms apart |
| MacMonitor.Monitor.constructor | src-tauri/src/platform/macos.rs:10-11 | the loop starts released at the start time |
| MacMonitor.Monitor.Tick | src-tauri/src/platform/macos.rs:16-38 | one macOS loop pass behaves as `Step` says |
| MacMonitor.Monitor.FallbackTick | src-tauri/src/platform/macos.rs:51-73 | one pass of the fallback loop behaves as `FallbackStep` says; that loop is never compiled, since platform/mod.rs:1-2 includes macos.rs only on macOS |
| WindowsMonitor.StepTracksControl | src-tauri/src/platform/windows.rs:26-98 | a Control press sets the flag, a release clears it, other events leave it, and the remembered state is the flag |
| WindowsMonitor.StepIsDebounced | src-tauri/src/platform/windows.rs:39-57 | the callback outputs something exactly when the 25 ms debounce accepts an edge of the flag |
| WindowsMonitor.PressOutputs | src-tauri/src/platform/windows.rs:39-55 | an accepted press records the press time, shows the main window when it exists, then emits "listening", "start-recording" and starts the recorder |
| WindowsMonitor.ReleaseOutputs | src-tauri/src/platform/windows.rs:57-97 | an accepted release emits "loading" and "stop-recording", starts the worker, and reports the hold time exactly when a press time was recorded |
| WindowsMonitor.HoldStartKept | src-tauri/src/platform/windows.rs:21-41 | the press time is never cleared and changes only to the time of an accepted press |
| WindowsMonitor.WorkerOutputs | src-tauri/src/platform/windows.rs:79-90 | the worker reports success or error, then "idle", then hides the main window if there is one |
| WindowsMonitor.Monitor.constructor | src-tauri/src/platform/windows.rs:13-21 | the flag and the remembered state start released, with no press time and no output |
| WindowsMonitor.Monitor.OnEvent | src-tauri/src/platform/windows.rs:24-99 | one callback updates the flag and the captured variables and appends its outputs as `Step` says |
| Sorting.SortPermutation | src-tauri/src/modules/storage/history.rs:79 | `sort_by` returns a permutation of its input |
| Sorting.SortSorted | src-tauri/src/modules/storage/history.rs:79 | under a total preorder, `sort_by` returns a sorted sequence |
| Sorting.SortStable | src-tauri/src/modules/storage/history.rs:79 | `sort_by` is stable: the elements tied with any given value keep their order |
| Strings.Lower | src-tauri/src/modules/audio/devices.rs:26 | lower-casing keeps the length and lowers each ASCII capital |
| Strings.Find | src-tauri/src/modules/audio/devices.rs:33 | finds the first occurrence of the pattern, or reports that there is none |
| Strings.Utf8Length | src-tauri/src/modules/audio/processor.rs:406 | `str::len` is between one and four bytes per character |
| Strings.DecimalRoundTrip | src-tauri/src/modules/ui/commands.rs:316 | the decimal text of a count reads back as that count |
| Seqs.KeepLast | src-tauri/src/modules/storage/usage_stats.rs:83-85 | keeps `min(len, n)` elements, which form the end of the input |
| Seqs.FirstIndex | src-tauri/src/modules/storage/history.rs:87 | `position` returns the first index whose element satisfies the test, or none when no element does |
| Seqs.RemoveAt | src-tauri/src/modules/storage/history.rs:88 | `remove(i)` removes exactly the element at `i` |

## Left out

- Loading and saving to disk are file I/O and are not modelled: `load_from_file`, `save` and the `get_*_path` functions in usage_stats.rs, history.rs and analytics.rs. The stored statistics are an object. `UsageStats::load` is modelled only for a file that reads back (`Usage.UsageStats.Load`); its fallback to the defaults is not modelled.
- `update_with_recording` and `UsageStats::default` read the clock and today's date. Both are parameters.
- `select_default_input_device`, `init_audio_recorder`, `record_thread_worker` and `build_input_stream` (recorder.rs) talk to the audio hardware. The capture stream, its thread and the i16/u16 sample conversion are left out.
- `is_global_recording`, `get_global_audio_receiver` and `get_global_sample_rate` are plain reads of the recorder's fields. The receiver is always present, so its "Failed to get audio receiver" error cannot occur in the model.
- Draining stale audio before a session (commands.rs:244) is not modelled, because the channel's contents are not part of the command state.
- `resample_to_16k`, `preprocess_audio_for_speech` and `transcribe_with_groq` (processor.rs) are floating-point signal processing and a network call. The service's answer is the `result` parameter.
- Playing sounds and typing the text are `Play` and `Inject` steps. Typing succeeds or fails according to the `injectOk` parameter.
- `get_audio_devices`, `set_audio_device`, `set_groq_api_key`, `get_current_groq_api_key` and `debug_wave_windows` (commands.rs) are not modelled. They are thin wrappers around the modelled device functions, around configuration I/O, or around logging.
- Positioning the window on a monitor in `show_wave_window` (commands.rs:96-120) depends on monitor geometry and is not modelled. So is `unminimize`.
- Sleeps, thread scheduling and the interleaving of the monitor threads, the processing thread and the commands are not modelled. Each command and each step runs atomically.
- Recorder.CollectAudioChunk: the 100 ms time limit is represented by the number of polls that fit in it.
- The Windows monitor (windows.rs) refers to items that no file of the repository defines, so that file cannot build as it stands:
  - `crate::handle_stop_recording_workflow` (windows.rs:6, :69) is defined neither in lib.rs nor anywhere else;
  - `crate::audio` (windows.rs:5, :54) does not exist, since lib.rs declares only `modules`, `platform` and `constants`, and the only `start_recording` takes an `AppHandle` (commands.rs:327);
  - the `static mut` at windows.rs:14 is initialised with the non-const `Instant::now()`.
  In the model, `WindowsMonitor.StartRecordingCall` and the worker's `ok` therefore stand for calls whose targets are not in the source. Only whether the workflow succeeded reaches the worker.
- Saving and restoring the foreground window on Windows is a foreign call and is not modelled.
- `suppress_alsa_errors` (linux.rs) installs foreign error handlers and is not modelled.
- Integer widths are not modelled: counters, durations and the window counter are unbounded naturals, so u64/u32 overflow cannot occur. The counter's decrement in a failed show is the increment undone.
- Amplitudes, averages and volumes are real numbers, so f32/f64 rounding is not modelled.
- Windows hold time: measured at the callback's `now` rather than by a second clock reading.
- `to_lowercase` is modelled on ASCII letters only. No other character lowers into the ASCII letters of "default", "pulse" or "hw:", except U+212A KELVIN SIGN, which lowers to 'k' and appears in none of them.
- The lazily created `AUDIO_PROCESSOR` is modelled as always present. A missing processor is idle, which is what a stopped one is.

## Findings

| source | as written | input that shows it | evidently intended | confidence | as-written member | corrected member |
|---|---|---|---|---|---|---|
| src-tauri/src/modules/audio/processor.rs:412-414 | `record_session` loads the usage statistics into a local value, calls `add_recording` on it and drops it; `UsageStats::save` (usage_stats.rs:88) has no caller, so `get_usage_stats` never sees a session | any finished session, e.g. one session of 1000 ms with text "hi" into empty stores: analytics then hold one day, stored usage statistics still count 0 recordings | save the updated statistics, so the session counts in the stored totals and log | high; not executed | Processor.RecordSession, Processor.RecordSessionLosesUsage | Processor.RecordSessionSaved |

