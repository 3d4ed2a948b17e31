# AudioRecorderPavanKumar, modelled in Dafny

A model of the logic in the AudioRecorderPavanKumar voice-memo app for iOS. The model covers:

- **Recorder** (`RecorderViewModel`). The recording state machine: `idle`, `recording` and `paused`. It drives an AVAudioRecorder writing `<documents>/recording.m4a` and a repeating one-second timer that counts `recordingDuration`. Stopping moves the file to `<documents>/savedRecording.m4a`.
- **Recorder screen** (`RecorderView`). The status text, the two buttons and the `MM:SS` duration label.
- **Recordings catalog** (`RecordingsListViewModel`). The list of `.m4a` files in the documents directory, with rename and delete going through FileManager.
- **Recordings screen** (`RecordingsListView`). The date label of each row, the rename sheet, and delete-by-offsets.
- **Player** (`PlayerViewModel`). The `isPlaying` flag beside the AVAudioPlayer it last created.

AVFoundation, FileManager, DateFormatter and the timer run loop are reduced to what the app relies on:

- A boolean says whether a call that can throw does throw.
- FileManager is a listing of files, with rules for what a move, a removal and a new recording do to it (`Files.Moved`, `Seqs.Without`, `Files.Created`).
- An AVAudioRecorder is a status (capturing, suspended, stopped) with the rule that recording again after a stop writes its file anew; an AVAudioPlayer is a `playing` flag.
- Timer firings are events that carry the timer's identity.
- The date formatter is a pair of functions.

Each view-model is a class with the source's fields. Each of its methods is proved against a pure transition function over a snapshot of those fields. What the source promises is then proved about those functions, both per call (`ensures`) and across calls (lemmas).

| file | module | source |
|---|---|---|
| wrappers.dfy | `Wrappers` | `Option` |
| seqs.dfy | `Seqs` | Swift's `filter`, `remove(at:)`, and deleting several offsets at once |
| paths.dfy | `Paths` | file URLs, `pathExtension`, `deletingLastPathComponent().appendingPathComponent` |
| files.dfy | `Files` | the documents directory as FileManager shows it |
| recorder_model.dfy | `RecorderModel` | ViewModels/RecorderViewModel.swift |
| recorder_screen.dfy | `RecorderScreen` | Views/RecorderView.swift |
| recording_list.dfy | `RecordingList` | ViewModels/RecordingListViewModel.swift |
| recordings_screen.dfy | `RecordingsScreen` | Views/RecordingsListView.swift, with the rename sheet's buttons from Views/RenameRecordingView.swift |
| playback.dfy | `Playback` | ViewModels/PlayerViewModel.swift |

### Behaviour of the code worth knowing

- **Unguarded transitions.** Start, pause, resume and stop act from every state. The only guard is on start: setup has to succeed.
  - Resuming or starting again while recording leaves the earlier timer running: it can no longer be invalidated (`RecorderModel.ResumeWhileRecordingLeaksTimer`, `RecorderModel.RestartWhileRecordingLeaksTimer`).
  - The recorder screen cannot reach that state (`RecorderScreen.RunKeepsCoherent`).
- **No resume on screen.** On the screen, the main button calls `startRecording()` when the state is `paused`. That creates a new recorder over the same file (`RecorderModel.StartWhilePausedReplacesRecorder`). `resumeRecording()` is never called from the screen.
- **Duration.** The duration counts timer firings, 1.0 per firing; it does not read a clock.
- **File names.** The recorder always writes `recording.m4a` and then `savedRecording.m4a`, while the list's date label expects names `recording_<yyyyMMddHHmmss>.m4a`. As a result, every file the app records shows "Unknown date" in the list (`RecordingsScreen.RecorderFilesShowUnknownDate`).
- **Absent features.** The code has no level meter, no session persistence and no interruption handling.

## Model

| member | source | states |
|---|---|---|
| Seqs.Filter | AudioRecorderPavanKumar/ViewModels/RecordingListViewModel.swift:31 | `filter` is never longer than the list, every element it keeps satisfies the predicate and comes from the list, and every element of the list satisfying the predicate is kept |
| Seqs.RemoveAt | AudioRecorderPavanKumar/ViewModels/RecordingListViewModel.swift:61 | `remove(at:)`: the length drops by one, elements before the index stay put, later ones move up by one, and the multiset loses exactly that element |
| Seqs.WithoutAt | AudioRecorderPavanKumar/ViewModels/RecordingListViewModel.swift:60-61 | in a list without repeats, removing the file at an index from the directory and `remove(at:)` on the list agree |
| Seqs.FilterReplace | AudioRecorderPavanKumar/ViewModels/RecordingListViewModel.swift:46-47 | renaming an element into one the filter treats alike commutes with filtering, so a rename in place matches a fresh fetch as long as the directory listing keeps the renamed file where the old one was |
| Seqs.Keep | AudioRecorderPavanKumar/Views/RecordingsListView.swift:117-121 | deleting a set of offsets all at once, which is what swiping rows away means: the result is no longer than the list and holds only elements of it |
| Seqs.KeepMembers | AudioRecorderPavanKumar/Views/RecordingsListView.swift:117-121 | in a list without repeats, the element at an index survives the deletion of a set of offsets exactly when that index is not in the set |
| Seqs.RemoveAtKeep | AudioRecorderPavanKumar/Views/RecordingsListView.swift:117-121 | one `remove(at:)` below every offset already deleted equals deleting that offset together with them, so removing from the highest offset down deletes the set |
| Paths.PathExtension | AudioRecorderPavanKumar/ViewModels/RecordingListViewModel.swift:31 | `pathExtension` contains no '.'; a non-empty one is what follows the last '.', and it is "" exactly when the name has no '.' after its first character (a leading '.' marks a hidden file) or the name ends in '.' |
| Paths.PathExtensionAfterDot | AudioRecorderPavanKumar/ViewModels/RecordingListViewModel.swift:31 | for every name `a.b` with `a` non-empty and no '.' in `b`, the extension is exactly `b` |
| Paths.Sibling | AudioRecorderPavanKumar/ViewModels/RecordingListViewModel.swift:43 | `deletingLastPathComponent().appendingPathComponent(c)` keeps the directory and makes `c` the last path component |
| Paths.AudioExtension | AudioRecorderPavanKumar/ViewModels/RecordingListViewModel.swift:43 | a name built as `"\(newName).m4a"` has extension "m4a" exactly when `newName` is not empty |
| Files.Listing | AudioRecorderPavanKumar/ViewModels/RecordingListViewModel.swift:30 | `contentsOfDirectory` yields the files lying directly in that directory and every one of them |
| Files.Moved | AudioRecorderPavanKumar/ViewModels/RecordingListViewModel.swift:46 | after a move the destination is listed, the source is gone unless it is the destination, every other file is listed exactly as before, and no file is listed twice |
| Files.Created | AudioRecorderPavanKumar/ViewModels/RecorderViewModel.swift:47 | a recorder's file is listed once it records, no other file changes, and no file is listed twice |
| Files.FileStore.ContentsOfDirectory | AudioRecorderPavanKumar/ViewModels/RecordingListViewModel.swift:30 | the call throws exactly when the environment makes it fail; otherwise it returns the listing |
| Files.FileStore.MoveItem | AudioRecorderPavanKumar/ViewModels/RecordingListViewModel.swift:46 | `moveItem` succeeds exactly when it is not made to fail and the source exists; on failure the directory is unchanged |
| Files.FileStore.RemoveItem | AudioRecorderPavanKumar/ViewModels/RecordingListViewModel.swift:60 | `removeItem` succeeds exactly when it is not made to fail and the file exists; then exactly that file is gone, otherwise nothing changes |
| Files.FileStore.CreateFile | AudioRecorderPavanKumar/ViewModels/RecorderViewModel.swift:47 | the file a new recorder records into appears in the directory |
| RecorderModel.Initial | AudioRecorderPavanKumar/ViewModels/RecorderViewModel.swift:21-25 | the view-model starts `idle` with duration 0, no recorder, no timer and no live timer |
| RecorderModel.ScheduleTimer | AudioRecorderPavanKumar/ViewModels/RecorderViewModel.swift:81-87 | `startTimer` makes one new live timer and points `timer` at it, while every timer live before stays live, because the old one is not invalidated |
| RecorderModel.InvalidateTimer | AudioRecorderPavanKumar/ViewModels/RecorderViewModel.swift:62 | `timer?.invalidate()` stops exactly the timer the reference points at; all other live timers keep firing |
| RecorderModel.Start | AudioRecorderPavanKumar/ViewModels/RecorderViewModel.swift:29-56 | if setup throws, nothing changes; otherwise, from any state, a fresh recorder captures into `recording.m4a`, that file is added to the directory and no other file changes, the state is `recording`, exactly one new timer is live, and the duration is not reset |
| RecorderModel.Pause | AudioRecorderPavanKumar/ViewModels/RecorderViewModel.swift:58-63 | from any state: a recording recorder (if any) is suspended, one already stopped stays stopped, the state is `paused`, the duration, the directory and the timer reference are kept, and only the referenced timer stops |
| RecorderModel.Resume | AudioRecorderPavanKumar/ViewModels/RecorderViewModel.swift:65-70 | from any state: the same recorder records again, the state is `recording`, and a new timer starts beside any live ones; a recorder that was stopped writes its file anew, and otherwise the directory is unchanged |
| RecorderModel.Save | AudioRecorderPavanKumar/ViewModels/RecorderViewModel.swift:89-107 | with no recorder, nothing changes; otherwise the recorder stops and, when the move succeeds, its file becomes `savedRecording.m4a`; a failed move leaves the files as they were and keeps the recorder; state, duration, the timer reference and the live timers are untouched |
| RecorderModel.Stop | AudioRecorderPavanKumar/ViewModels/RecorderViewModel.swift:72-79 | from any state: the recorder stops, the state is `idle`, the duration and the timer reference are kept, only the referenced timer stops, and the recording is moved to `savedRecording.m4a` when there is a recorder and the move succeeds; otherwise the directory is unchanged |
| RecorderModel.Elapse | AudioRecorderPavanKumar/ViewModels/RecorderViewModel.swift:83-86 | a firing of a live timer adds exactly one second and changes nothing else |
| RecorderModel.OnlyTicksChangeDuration | AudioRecorderPavanKumar/ViewModels/RecorderViewModel.swift:85 | start, pause, resume, stop and save leave the duration unchanged; only a tick changes it, and a tick increases it |
| RecorderModel.ResumeWhileRecordingLeaksTimer | AudioRecorderPavanKumar/ViewModels/RecorderViewModel.swift:65-70 | resuming while recording and then pausing leaves the earlier timer live, so the duration still grows while paused |
| RecorderModel.RestartWhileRecordingLeaksTimer | AudioRecorderPavanKumar/ViewModels/RecorderViewModel.swift:29-56 | starting again while recording and then stopping leaves the earlier timer live after stop |
| RecorderModel.StartWhilePausedReplacesRecorder | AudioRecorderPavanKumar/ViewModels/RecorderViewModel.swift:44-47 | starting from `paused` makes a different recorder over the same file, while resuming would keep the paused recorder |
| RecorderModel.ResumeAfterStopRecreatesFile | AudioRecorderPavanKumar/ViewModels/RecorderViewModel.swift:65-79 | after a stop has moved `recording.m4a` to `savedRecording.m4a`, resuming records into a new `recording.m4a` while the saved file stays |
| RecorderModel.PauseAfterStopKeepsRecorderStopped | AudioRecorderPavanKumar/ViewModels/RecorderViewModel.swift:58-79 | pausing after a stop leaves the stopped recorder stopped, so resuming after that still records into a new `recording.m4a` beside the saved file |
| RecorderModel.RecorderViewModel.constructor | AudioRecorderPavanKumar/ViewModels/RecorderViewModel.swift:21-25 | the fields start as `Initial` says |
| RecorderModel.RecorderViewModel.StartRecording | AudioRecorderPavanKumar/ViewModels/RecorderViewModel.swift:29-56 | the fields change as `Start` says |
| RecorderModel.RecorderViewModel.PauseRecording | AudioRecorderPavanKumar/ViewModels/RecorderViewModel.swift:58-63 | the fields change as `Pause` says |
| RecorderModel.RecorderViewModel.ResumeRecording | AudioRecorderPavanKumar/ViewModels/RecorderViewModel.swift:65-70 | the fields change as `Resume` says |
| RecorderModel.RecorderViewModel.StopRecording | AudioRecorderPavanKumar/ViewModels/RecorderViewModel.swift:72-79 | the fields change as `Stop` says |
| RecorderModel.RecorderViewModel.StartTimer | AudioRecorderPavanKumar/ViewModels/RecorderViewModel.swift:81-87 | the fields change as `ScheduleTimer` says |
| RecorderModel.RecorderViewModel.Tick | AudioRecorderPavanKumar/ViewModels/RecorderViewModel.swift:83-86 | the timer closure changes the fields as `Elapse` says |
| RecorderModel.RecorderViewModel.SaveRecording | AudioRecorderPavanKumar/ViewModels/RecorderViewModel.swift:89-107 | the fields change as `Save` says |
| RecorderModel.RecorderViewModel.AudioRecorderEncodeErrorDidOccur | AudioRecorderPavanKumar/ViewModels/RecorderViewModel.swift:112-114 | an encode error changes nothing |
| RecorderModel.RecorderViewModel.AudioRecorderDidFinishRecording | AudioRecorderPavanKumar/ViewModels/RecorderViewModel.swift:116-122 | the finish callback changes nothing, with either flag |
| RecorderScreen.MainButtonAction | AudioRecorderPavanKumar/Views/RecorderView.swift:23-29 | the main button pauses exactly when recording and otherwise starts, `paused` included |
| RecorderScreen.StatusText | AudioRecorderPavanKumar/Views/RecorderView.swift:16 | the status line reads "Recording..." exactly when recording, and "Tap to Record" otherwise |
| RecorderScreen.MainButtonIcon | AudioRecorderPavanKumar/Views/RecorderView.swift:30 | the main button shows the pause icon exactly when recording, and the record icon otherwise |
| RecorderScreen.TapMain | AudioRecorderPavanKumar/Views/RecorderView.swift:23-29 | the main button pauses while recording, leaving the files alone; in any other state it starts a recording with a new recorder, or changes nothing when setup fails |
| RecorderScreen.ButtonMatchesLabels | AudioRecorderPavanKumar/Views/RecorderView.swift:16-30 | the status text reads "Recording...", the icon is the pause icon, and the button pauses, each exactly when the state is `recording` |
| RecorderScreen.ZeroPad2 | AudioRecorderPavanKumar/Views/RecorderView.swift:51 | `%02d` gives only digits, at least two of them, and more only from 100 up |
| RecorderScreen.FormattedDuration | AudioRecorderPavanKumar/Views/RecorderView.swift:47-52 | the label is at least five characters with ':' before the last two, and exactly five (`MM:SS`) iff the duration is under 100 minutes; minutes are not capped |
| RecorderScreen.FormattedDurationRoundTrip | AudioRecorderPavanKumar/Views/RecorderView.swift:48-51 | the label reads back to the duration: minutes from `d / 60` and seconds in 0..59 from `d % 60`, with `minutes * 60 + seconds == d` |
| RecorderScreen.Step | AudioRecorderPavanKumar/Views/RecorderView.swift:22-37 | any tap, on either button in any state, or any timer firing keeps the model well formed and never shortens the duration |
| RecorderScreen.StepKeepsCoherent | AudioRecorderPavanKumar/Views/RecorderView.swift:22-37 | each tap or firing keeps the view-model coherent: exactly the current timer is live while recording, none otherwise, and the recorder does what the state says |
| RecorderScreen.RunKeepsCoherent | AudioRecorderPavanKumar/Views/RecorderView.swift:22-37 | any sequence of taps and firings keeps that coherence, so the timer leak is out of the screen's reach |
| RecorderScreen.RunNeverShortensDuration | AudioRecorderPavanKumar/ViewModels/RecorderViewModel.swift:85 | the duration never decreases, whatever happens |
| RecorderScreen.FrozenUnlessRecording | AudioRecorderPavanKumar/ViewModels/RecorderViewModel.swift:58-63 | when the screen is coherent and not recording, timer firings change nothing, so the duration is frozen while paused |
| RecorderScreen.RecordingCountsSeconds | AudioRecorderPavanKumar/ViewModels/RecorderViewModel.swift:81-87 | while recording, k firings of the current timer add exactly k seconds and change nothing else |
| RecorderScreen.PauseResumeContinues | AudioRecorderPavanKumar/ViewModels/RecorderViewModel.swift:58-70 | pause freezes the duration at V; after resume the new timer counts on from V |
| RecorderScreen.RecordPauseRecordStop | AudioRecorderPavanKumar/Views/RecorderView.swift:23-37 | record 2 s, pause, tap the main button again for 1 s, stop: the screen is idle, the duration label counts 3 s, no timer is live, and the directory holds only `savedRecording.m4a`, which holds only the last second because the second tap starts a new recorder |
| RecordingList.AudioOnly | AudioRecorderPavanKumar/ViewModels/RecordingListViewModel.swift:31 | the fetch keeps every listed file whose extension is "m4a" and nothing else |
| RecordingList.IsAudio | AudioRecorderPavanKumar/ViewModels/RecordingListViewModel.swift:31 | a file counts as audio exactly when its name ends in ".m4a" after at least one other character |
| RecordingList.RenameTarget | AudioRecorderPavanKumar/ViewModels/RecordingListViewModel.swift:43 | the new URL is in the old URL's directory and is named `newName + ".m4a"`; it is an audio file exactly when `newName` is not empty |
| RecordingList.Fetch | AudioRecorderPavanKumar/ViewModels/RecordingListViewModel.swift:27-35 | if listing throws, the list is unchanged; otherwise it is exactly the audio files of the documents directory in listing order |
| RecordingList.Rename | AudioRecorderPavanKumar/ViewModels/RecordingListViewModel.swift:41-52 | on a successful move only the entry at `index` changes, to the new URL, the length is kept and the file is moved; on a failed move nothing changes |
| RecordingList.Delete | AudioRecorderPavanKumar/ViewModels/RecordingListViewModel.swift:56-66 | on a successful removal exactly the entry at `index` leaves, the others keep their order, and the file is gone; on failure nothing changes |
| RecordingList.FetchSyncs | AudioRecorderPavanKumar/ViewModels/RecordingListViewModel.swift:30-31 | a successful fetch brings the list in line with the directory |
| RecordingList.SyncedShape | AudioRecorderPavanKumar/ViewModels/RecordingListViewModel.swift:30-31 | a list in line with the directory has no repeats, and each entry is an existing audio file of the documents directory |
| RecordingList.RenameKeepsSync | AudioRecorderPavanKumar/ViewModels/RecordingListViewModel.swift:41-52 | after a rename to a non-empty name not already taken, the list still equals what a fresh fetch would return |
| RecordingList.EmptyNameRenameDropsRecording | AudioRecorderPavanKumar/ViewModels/RecordingListViewModel.swift:41-52 | renaming to the empty name moves the file to `.m4a`; the list shows it, but a fresh fetch does not, so the list is no longer in line with the directory |
| RecordingList.RenameUnlessEmpty | AudioRecorderPavanKumar/Views/RenameRecordingView.swift:42-45 | the rename with an empty name refused: an empty name changes nothing, the list keeps its length, and an audio entry stays an audio file after the rename |
| RecordingList.RenameUnlessEmptyKeepsSync | AudioRecorderPavanKumar/Views/RenameRecordingView.swift:42-45 | with empty names refused, every rename to a name not already taken keeps the list equal to what a fresh fetch would return |
| RecordingList.DeleteKeepsSync | AudioRecorderPavanKumar/ViewModels/RecordingListViewModel.swift:56-66 | after a delete, the list still equals what a fresh fetch would return |
| RecordingList.RecordingsListViewModel.constructor | AudioRecorderPavanKumar/ViewModels/RecordingListViewModel.swift:22-24 | `init` starts from an empty list and fetches |
| RecordingList.RecordingsListViewModel.FetchRecordings | AudioRecorderPavanKumar/ViewModels/RecordingListViewModel.swift:27-35 | the list changes as `Fetch` says |
| RecordingList.RecordingsListViewModel.RenameRecording | AudioRecorderPavanKumar/ViewModels/RecordingListViewModel.swift:41-52 | the index must be in range (the subscript traps otherwise); the list and directory change as `Rename` says |
| RecordingList.RecordingsListViewModel.DeleteRecording | AudioRecorderPavanKumar/ViewModels/RecordingListViewModel.swift:56-66 | the index must be in range; the list and directory change as `Delete` says |
| RecordingsScreen.RemoveAll | AudioRecorderPavanKumar/Views/RecordingsListView.swift:131 | `replacingOccurrences(of:with: "")` never lengthens a string and leaves it alone when the pattern's first character is absent |
| RecordingsScreen.RemoveAllTrailing | AudioRecorderPavanKumar/Views/RecordingsListView.swift:131 | removing a pattern that only ends the string leaves exactly what came before it |
| RecordingsScreen.RemoveAllOnlyTrailing | AudioRecorderPavanKumar/Views/RecordingsListView.swift:131 | removing a pattern that ends the string and starts nowhere earlier leaves exactly what came before it |
| RecordingsScreen.RemoveAllAbsent | AudioRecorderPavanKumar/Views/RecordingsListView.swift:131 | a string in which the pattern never occurs is left unchanged |
| RecordingsScreen.TimestampString | AudioRecorderPavanKumar/Views/RecordingsListView.swift:131 | the string handed to the formatter is never longer than the file name, and a name with no 'r' and no '.' is handed over unchanged |
| RecordingsScreen.FormatDate | AudioRecorderPavanKumar/Views/RecordingsListView.swift:127-140 | the row reads "Unknown date" whenever the extracted timestamp does not parse, and otherwise shows the parsed date |
| RecordingsScreen.TimestampOfConventionalName | AudioRecorderPavanKumar/Views/RecordingsListView.swift:131 | for `recording_X.m4a` the extracted timestamp is exactly X, for every X in which neither "recording_" nor ".m4a" occurs |
| RecordingsScreen.TimestampOfDigitStamp | AudioRecorderPavanKumar/Views/RecordingsListView.swift:129-131 | in particular an all-digit stamp, the shape the formatter's pattern expects, is extracted whole |
| RecordingsScreen.StampOfPlainName | AudioRecorderPavanKumar/Views/RecordingsListView.swift:131 | for `<base>.m4a` without "recording_" and with no '.' in the base, the extracted timestamp is the base |
| RecordingsScreen.RecorderFileStamps | AudioRecorderPavanKumar/Views/RecordingsListView.swift:130-131 | for the two files the recorder writes, the extracted timestamps are "recording" and "savedRecording" |
| RecordingsScreen.RecorderFilesShowUnknownDate | AudioRecorderPavanKumar/Views/RecordingsListView.swift:133-139 | with a formatter that accepts only digits, every file the app records is shown with "Unknown date" |
| RecordingsScreen.Rows | AudioRecorderPavanKumar/Views/RecordingsListView.swift:44-55 | there is one row per recording, in list order, and row i shows recording i's name and date label |
| RecordingsScreen.DeleteEach | AudioRecorderPavanKumar/Views/RecordingsListView.swift:117-121 | `deleteRecordings` as written: unless it traps, the list loses at most one entry per offset |
| RecordingsScreen.DeleteEachSingle | AudioRecorderPavanKumar/Views/RecordingsListView.swift:117-121 | with one offset, swiping is exactly `deleteRecording(at:)`, trapping when the offset is out of range |
| RecordingsScreen.DeleteFromLast | AudioRecorderPavanKumar/Views/RecordingsListView.swift:117-121 | deleting from the last offset down only needs every offset to be in range of the list before the first deletion (so it never traps), and it removes at most one entry per offset |
| RecordingsScreen.DeleteFromLastRemovesOffsets | AudioRecorderPavanKumar/Views/RecordingsListView.swift:117-121 | deleting from the last offset down removes exactly the swiped rows, keeps the rest in order, and keeps the list in line with the directory |
| RecordingsScreen.AscendingDeleteRemovesWrongRow | AudioRecorderPavanKumar/Views/RecordingsListView.swift:117-121 | as written, swiping rows 0 and 2 of four removes rows 0 and 3: row 2 should go and stays, row 3 should stay and goes |
| RecordingsScreen.AscendingDeleteTraps | AudioRecorderPavanKumar/Views/RecordingsListView.swift:117-121 | as written, swiping both rows of a two-row list traps on the second offset |
| RecordingsScreen.RecordingsListView.constructor | AudioRecorderPavanKumar/Views/RecordingsListView.swift:29-33 | no row picked, an empty name, and no rename sheet |
| RecordingsScreen.RecordingsListView.Refresh | AudioRecorderPavanKumar/Views/RecordingsListView.swift:103-110 | appearing, and dismissing the recorder sheet, refetch the list |
| RecordingsScreen.RecordingsListView.ShowRename | AudioRecorderPavanKumar/Views/RecordingsListView.swift:58-61 | "Rename" on a row remembers that row and presents the sheet, leaving the typed name alone |
| RecordingsScreen.RecordingsListView.EditName | AudioRecorderPavanKumar/Views/RenameRecordingView.swift:37 | typing sets the name and nothing else |
| RecordingsScreen.RecordingsListView.ConfirmRename | AudioRecorderPavanKumar/Views/RecordingsListView.swift:96-98 | confirming renames the remembered row to the typed name (traps unless a row was picked and is in range), then the sheet closes |
| RecordingsScreen.RecordingsListView.CancelRename | AudioRecorderPavanKumar/Views/RenameRecordingView.swift:53-55 | cancelling closes the sheet and changes nothing else |
| RecordingsScreen.RecordingsListView.RenameSheetDisappeared | AudioRecorderPavanKumar/Views/RecordingsListView.swift:99-101 | when the sheet disappears, the typed name is cleared |
| RecordingsScreen.RecordingsListView.DeleteFromMenu | AudioRecorderPavanKumar/Views/RecordingsListView.swift:66-68 | "Delete" on a row deletes that row as `Delete` says |
| RecordingsScreen.RecordingsListView.DeleteRecordings | AudioRecorderPavanKumar/Views/RecordingsListView.swift:117-121 | the loop over the offsets does exactly what `DeleteEach` says |
| Playback.Opened | AudioRecorderPavanKumar/ViewModels/PlayerViewModel.swift:21-32 | the player view-model starts not playing, with the URL it was given and no player |
| Playback.Play | AudioRecorderPavanKumar/ViewModels/PlayerViewModel.swift:35-46 | without a URL, or when opening throws, nothing changes; otherwise a new player, different from the one before, plays the URL and `isPlaying` is true |
| Playback.PlayAfterPauseRestarts | AudioRecorderPavanKumar/ViewModels/PlayerViewModel.swift:38-51 | Play after Pause opens a different player for the same file instead of resuming the paused one, so playback starts from the beginning |
| Playback.Pause | AudioRecorderPavanKumar/ViewModels/PlayerViewModel.swift:49-52 | `isPlaying` is false in every state, and the player (if any) is paused |
| Playback.Finish | AudioRecorderPavanKumar/ViewModels/PlayerViewModel.swift:64-66 | when the player finishes, `isPlaying` is false whatever the success flag |
| Playback.PauseIdempotent | AudioRecorderPavanKumar/ViewModels/PlayerViewModel.swift:49-52 | pausing twice is pausing once |
| Playback.ApplyKeepsInSync | AudioRecorderPavanKumar/ViewModels/PlayerViewModel.swift:35-66 | play, pause and finish each keep `isPlaying` true exactly when the current player plays, and that player plays `audioURL` |
| Playback.RunKeepsInSync | AudioRecorderPavanKumar/ViewModels/PlayerViewModel.swift:35-66 | that agreement holds after any sequence of plays, pauses and finishes |
| Playback.SilentUntilPlayOpens | AudioRecorderPavanKumar/ViewModels/PlayerViewModel.swift:35-52 | once nothing plays, nothing plays again until Play is tapped and the player opens |
| Playback.PlayerViewModel.constructor | AudioRecorderPavanKumar/ViewModels/PlayerViewModel.swift:30-32 | the fields start as `Opened` says |
| Playback.PlayerViewModel.PlayAudio | AudioRecorderPavanKumar/ViewModels/PlayerViewModel.swift:35-46 | the fields change as `Play` says |
| Playback.PlayerViewModel.PauseAudio | AudioRecorderPavanKumar/ViewModels/PlayerViewModel.swift:49-52 | the fields change as `Pause` says |
| Playback.PlayerViewModel.AudioPlayerDidFinishPlaying | AudioRecorderPavanKumar/ViewModels/PlayerViewModel.swift:64-66 | the fields change as `Finish` says |

## Left out

- AVFoundation. Audio-session setup, the recorder's and player's audio work, the audio settings and the delegate wiring are reduced to three things: a failure flag on the calls that throw, a recorder status (capturing, suspended, stopped) and a player `playing` flag.
- The timer run loop. Scheduling is an event that carries the timer's identity. The set of timers the run loop still fires is a ghost field. The `[weak self]` capture (the view-model being released) is not modelled.
- `recordingDuration` is a Swift `Double`. It is modelled as whole seconds, because it starts at 0 and only ever grows by 1.0, so `Int(recordingDuration)` is exact.
- DateFormatter. Parsing with "yyyyMMddHHmmss" and medium/short display are parameters of `RecordingsScreen.FormatDate`.
- The documents directory. It is a fixed one-level path, because its real location is chosen by the operating system. FileManager is a listing of files, and each of list, move and remove can fail.
- Files.Moved lets a move replace an existing destination. FileManager throws instead. The model covers that only through the failure flag, because the model does not encode FileManager's overwrite rules.
- RecordingList.RenameKeepsSync and RecordingList.RenameUnlessEmptyKeepsSync assume the new name is not already taken by another file. After such a move the list would keep an entry for the file the move replaced.
- Paths.PathExtension follows Foundation's rule that a leading '.' marks a hidden name, not an extension. Foundation's other special cases for path extensions are not modelled, because the app does not produce such names.
- RecordingList.RenameKeepsSync, and RecordingList.RenameUnlessEmptyKeepsSync, which rests on it, keep a renamed file at its old place in the directory listing. FileManager promises no listing order, so a fresh fetch may list the renamed file elsewhere. The lemmas state that the list matches a fresh fetch under the model's order, not under every order FileManager could use.
- RecorderModel.Resume, like RecorderModel.Start, takes `record()` to succeed. `record()` returns a Bool, which the source ignores: it sets `recording` and starts a timer even when recording did not begin, and the model cannot show that the recorder is then idle.
- Playback.Play takes `play()` to start playback. `play()` returns a Bool, which the source ignores: it sets `isPlaying` to true even when playback did not start. So Playback.ApplyKeepsInSync and Playback.RunKeepsInSync, which say `isPlaying` tells the truth about the player, hold only under that assumption.
- RecordingList.RenameTarget treats `newName` as a single path component. A `newName` containing "/" would make `appendingPathComponent` build a path in a subdirectory.
- Logging (`print`) and the error text are not modelled. Every caught error is modelled as "nothing else changes".
- Not modelled, because they are not part of this model:
  - VolumeMeterView (floating-point bar geometry)
  - StorageManager (a disk-space query and a notification)
  - the app delegate's lifecycle notifications, which nothing observes
  - the layout of ContentView, NoRecordingsView, PlayerView and RenameRecordingView
  - `AudioPlayerManager`, which only the commented-out player view uses
- PlayerView's Play/Pause buttons are view layout over `PlayAudio` and `PauseAudio`, and are not modelled beyond the `PlayerEvent` taps.
- The row's `PlayerView(audioURL:renameAction:)` call matches no initializer in PlayerView.swift. It is not modelled. The context menu's "Rename" does the same thing (`ShowRename`).
- The "Start New Recording" button and the recorder sheet are not modelled beyond the refetch on dismissal.

## Findings

| source | as written | input that shows it | evidently intended | confidence | as-written member | corrected member |
|---|---|---|---|---|---|---|
| AudioRecorderPavanKumar/Views/RecordingsListView.swift:117-121 | `deleteRecordings(at:)` calls `deleteRecording(at:)` for each offset in ascending order, on a list that has already lost the earlier rows | four distinct recordings with offsets {0, 2}: rows 0 and 3 are deleted and row 2 stays; two recordings with offsets {0, 1}: the second call subscripts past the end and traps | exactly the rows at the given offsets are deleted, e.g. by deleting from the highest offset down | not executed; a single swipe delivers one offset, so the failure needs several offsets in one call | RecordingsScreen.AscendingDeleteRemovesWrongRow | RecordingsScreen.DeleteFromLastRemovesOffsets |
| AudioRecorderPavanKumar/ViewModels/RecordingListViewModel.swift:43 | `renameRecording(at:to:)` builds `"\(newName).m4a"` from whatever the rename sheet holds, and the sheet's name starts empty and is cleared when the sheet closes | confirm the sheet without typing: the file becomes `.m4a`, a hidden name without an extension, and the next fetch drops it from the list | an empty name is refused, so a renamed recording stays an `.m4a` file the list shows | not executed; rests on Foundation giving `.m4a` no path extension | RecordingList.EmptyNameRenameDropsRecording | RecordingList.RenameUnlessEmptyKeepsSync |
