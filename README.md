# Live captioning loop: a Dafny model

This project models the capture–transcribe–append loop of
`live_caption/live_caption.py`. The loop does the following on every pass:

- It probes the frontmost macOS application.
- When the application differs from the previous probe, it starts a new caption session. That means a fresh session stamp, a caption file named `<safe app name>_<stamp>.txt` in the captions directory, and a "Switched to App" marker appended to that file.
- It records a fixed-length audio chunk named `<safe app name>_<stamp>.wav` in the audio directory.
- It transcribes the chunk only when the chunk exists and is larger than 1000 bytes.
- It appends the stripped transcript to the session's caption file when that text is not blank. Transcription errors and append errors are caught and logged.
- It deletes the chunk when the chunk exists.

The model has three layers:

- **Pure functions.** `Naming` holds `safe_filename`, `get_caption_file`, the chunk path and POSIX `os.path.join`. `Transcript` holds Python's `str.strip()` over the `str.isspace()` character set. `CaptureSpec` holds one iteration (`Next`), a finite run (`Run`) and `main_loop` (`MainLoop`). These work on a state made of the session, a filesystem (a map from path to contents) and the trace of log lines.
- **The imperative loop.** `Capture.CaptionLoop` is a class whose fields are the three globals `last_app`, `caption_path` and `session_start_time`, plus the filesystem and the log. Its methods update these fields in place, one per phase of the loop body. Each method is proved to compute exactly the pure function of its phase.
- **Properties.** `CaptureProperties`, `CaptureRun` and `CaptureScenarios` prove properties of single iterations and of whole runs, plus concrete runs taken from the documented scenarios.

Everything the loop takes from outside in one pass is one `Tick`:

- the probed name;
- the clock readings;
- what the recorder leaves at the chunk path;
- the transcriber's text or exception;
- whether the caption append raises.

A run is a finite sequence of ticks. It ends with the user's stop.

Where the intended behaviour and the code differ, the model follows the code:

- **Caption-write faults.** A fault while writing a caption entry is described as fatal to the loop. In the code, the append at lines 93-94 sits inside the `try` whose `except Exception` at line 98 logs it and carries on. The model carries on too (`Tick.appendError`, logged as a transcription error).
- **Name collisions.** Sanitised names are described as collision-free. The code maps distinct names such as "A B" and "A_B" to the same caption file (`Naming.CaptionFilesCollide`). Distinct sessions are kept apart only by distinct stamps of the same width.

## Model

| member | source | states |
|---|---|---|
| Naming.Replace | live_caption/live_caption.py:53 | `str.replace` with one-character arguments keeps the length and swaps exactly the matching characters |
| Naming.SafeFilename | live_caption/live_caption.py:52-53 | the result has the input's length; every space and slash becomes `_` and every other character is kept; no space or slash is left |
| Naming.SafeFilenameIdempotent | live_caption/live_caption.py:52-53 | sanitising twice is sanitising once |
| Naming.SafeFilenameFixedPoints | live_caption/live_caption.py:52-53 | a name is left unchanged if and only if it has no space and no slash |
| Naming.SafeFilenameConcat | live_caption/live_caption.py:52-53 | sanitising distributes over concatenation (it works character by character) |
| Naming.SafeFilenameSpacesExample | live_caption/live_caption.py:52-53 | "Visual Studio Code" becomes "Visual_Studio_Code" |
| Naming.SafeFilenameSlashExample | live_caption/live_caption.py:52-53 | "A/B App" becomes "A_B_App" |
| Naming.Join | live_caption/live_caption.py:66 | `os.path.join(dir, name)` ends with `name`; an absolute `name` replaces `dir`; a relative `name` is placed under `dir`: `dir + name` when `dir` is empty or ends in `/`, otherwise `dir + "/" + name`, so the separator is always there |
| Naming.StampedPath | live_caption/live_caption.py:64-66 | the path of `<safe app>_<stamp><ext>` in a directory ends with that name, with `_<stamp><ext>` and with `<ext>`, and starts with the directory |
| Naming.CaptionFile | live_caption/live_caption.py:64-66 | `get_caption_file` starts with the captions directory and ends with `<safe app>_<start>.txt` |
| Naming.StampedPathPlacement | live_caption/live_caption.py:64-66 | a stamped name never starts with `/`, so its path is exactly that name placed under the directory, with one separator when the directory lacks one |
| Naming.CaptionFilePlacement | live_caption/live_caption.py:64-66 | `get_caption_file` is exactly `<safe app>_<start>.txt` placed under the captions directory |
| Naming.AudioChunkFile | live_caption/live_caption.py:85 | the chunk path starts with the audio directory and ends with `<safe app>_<stamp>.wav` |
| Naming.AudioChunkFilePlacement | live_caption/live_caption.py:85 | the chunk path is exactly `<safe app>_<stamp>.wav` placed under the audio directory |
| Naming.TxtIsNotWav | live_caption/live_caption.py:85 | no path ends with both `.txt` and `.wav` |
| Naming.CaptionFileIsNotChunk | live_caption/live_caption.py:85 | a caption file never coincides with an audio chunk path, whatever the directories, names and stamps |
| Naming.CaptionFilesOfDistinctStamps | live_caption/live_caption.py:77-78 | caption files of two sessions whose stamps differ but have the same width are different files |
| Naming.CaptionFilesCollide | live_caption/live_caption.py:64-66 | names are not collision-free: "A B" and "A_B" differ but share every caption file |
| Transcript.LeadingSpaces | live_caption/live_caption.py:62 | counts the leading whitespace: everything before the count is whitespace and the character at the count is not |
| Transcript.TextEnd | live_caption/live_caption.py:62 | everything from the returned index on is whitespace and the character before it is not |
| Transcript.Strip | live_caption/live_caption.py:62 | `.strip()` is empty exactly when the input is all whitespace; otherwise it starts and ends with non-whitespace and is the slice of the input between leading and trailing whitespace |
| Transcript.StripPadded | live_caption/live_caption.py:62 | whitespace padding of any length around a text with non-blank ends is exactly what `.strip()` removes |
| Transcript.StripUnpadded | live_caption/live_caption.py:62 | a transcript with no surrounding whitespace is written exactly as produced |
| Transcript.StripIdempotent | live_caption/live_caption.py:62 | stripping a stripped transcript changes nothing |
| CaptureSpec.AppendFile | live_caption/live_caption.py:79-80 | opening in mode "a" and writing creates the file if absent, adds the text at its end and leaves every other file alone |
| CaptureSpec.SwitchMarker | live_caption/live_caption.py:80 | no contract of its own: the marker text; `CaptureProperties.TrackEffect` and `CaptionAfterStep` state that it is appended exactly on a switch |
| CaptureSpec.CaptionEntry | live_caption/live_caption.py:94 | no contract of its own: the entry text; `CaptureProperties.CaptionAfterStep` states exactly when it is appended |
| CaptureSpec.Track | live_caption/live_caption.py:76-82 | no contract of its own; specified by `CaptureProperties.TrackEffect` and `NextSession` |
| CaptureSpec.ChunkPath | live_caption/live_caption.py:84-85 | no contract of its own; specified by `Naming.AudioChunkFile`, `Naming.AudioChunkFilePlacement`, `CaptureProperties.ChunkIsNotCaption` and `CaptureRun.NoChunkSurvives` |
| CaptureSpec.Record | live_caption/live_caption.py:87 | no contract of its own; `CaptureProperties.StepPhases` states that it changes only the chunk path |
| CaptureSpec.ChunkValid | live_caption/live_caption.py:89 | no contract of its own; `CaptureProperties.StepPhases` states that after recording it holds iff the chunk exists and exceeds 1000 bytes |
| CaptureSpec.Consume | live_caption/live_caption.py:89-101 | no contract of its own; specified by `CaptureProperties.ConsumeEffect` and `CaptureProperties.ConsumeVerdict` |
| CaptureSpec.Cleanup | live_caption/live_caption.py:103-105 | no contract of its own; specified by `CaptureProperties.OtherFilesAfterStep` and `CaptureRun.NoChunkSurvives` |
| CaptureSpec.Next | live_caption/live_caption.py:74-105 | no contract of its own; specified by `CaptureProperties.NextSession`, `CaptionAfterStep`, `OtherFilesAfterStep`, `StepLog`, `VerdictOfStep` and `EventsAfterStep` |
| CaptureSpec.Run | live_caption/live_caption.py:73-105 | no contract of its own; specified by `CaptureRun.SessionsCountChanges`, `RunExtendsLog`, `CaptionFilesOnlyGrow`, `AbsentStaysAbsent` and `NoChunkSurvives` |
| CaptureSpec.MainLoop | live_caption/live_caption.py:68-108 | no contract of its own; specified by `CaptureRun.MainLoopFromStartUp` |
| CaptureProperties.ChunkIsNotCaption | live_caption/live_caption.py:85 | this iteration's chunk path is never the session's caption file |
| CaptureProperties.TrackEffect | live_caption/live_caption.py:76-82 | the session tracker installs the new session on a switch; it appends the marker to that session's file and logs the switch; it touches nothing else |
| CaptureProperties.ConsumeEffect | live_caption/live_caption.py:89-101 | validation and transcription add exactly one log line: a transcriber outcome when the chunk is valid, "empty or missing" otherwise; they append one entry only when it is due and change no other file |
| CaptureProperties.ConsumeVerdict | live_caption/live_caption.py:89-101 | the one line validation and the `try` block log: "empty or missing" iff the chunk is not valid; "no speech" for the chunk iff the transcript is blank; a transcription error with the exception's message iff the transcriber raises or, for a non-blank transcript, the append raises; "appended" to the session's caption file iff neither happens |
| CaptureProperties.StepPhases | live_caption/live_caption.py:84-89 | after tracking and recording, the chunk is valid exactly when it exists and exceeds 1000 bytes; the recorder changes only the chunk path |
| CaptureProperties.NextSession | live_caption/live_caption.py:76-82 | a switch happens iff the probed name differs from `last_app` and always on the first pass; it installs a fresh session; otherwise the session is kept; `last_app` is the probed name after every pass |
| CaptureProperties.CaptionAfterStep | live_caption/live_caption.py:76-94 | the session's caption file gains the marker when the pass switches, then the stripped transcript as one entry iff the chunk is valid, the text is not blank and the append does not raise |
| CaptureProperties.OtherFilesAfterStep | live_caption/live_caption.py:76-105 | the chunk is gone at the end of every pass; the caption file exists once written to; every other file keeps its presence and contents |
| CaptureProperties.StepLog | live_caption/live_caption.py:81-105 | one pass logs an optional switch line, exactly one verdict on the chunk and an optional deletion line, after the old log |
| CaptureProperties.VerdictOfStep | live_caption/live_caption.py:89-101 | in a whole pass, the line after the optional switch line is the verdict on this pass's chunk and the session's caption file, as in `ConsumeVerdict`, with validity meaning a chunk over 1000 bytes |
| CaptureProperties.EventsAfterStep | live_caption/live_caption.py:89-105 | the transcriber runs (its outcome is logged) iff the chunk is larger than 1000 bytes; otherwise "empty or missing" is logged; the deletion is logged iff the chunk existed |
| CaptureRun.SwitchCountStep | live_caption/live_caption.py:76-82 | one pass records one new session when it switches and none otherwise |
| CaptureRun.RunWellFormed | live_caption/live_caption.py:76-82 | the caption path stays the one derived from `last_app` and the session stamp, over any run |
| CaptureRun.RunLastApp | live_caption/live_caption.py:82 | after a non-empty run, `last_app` is the last probed name |
| CaptureRun.SessionsCountChanges | live_caption/live_caption.py:73-82 | a run records one session per change point of the probed names, counted from the current `last_app` |
| CaptureRun.SessionsFromStartUp | live_caption/live_caption.py:40-82 | from start-up (`last_app` is `None`), the number of sessions is the number of change points, the first probe included |
| CaptureRun.NextOnlyAppends | live_caption/live_caption.py:79-94 | a pass keeps every existing file other than its chunk, with its old contents as a prefix |
| CaptureRun.CaptionFilesOnlyGrow | live_caption/live_caption.py:73-105 | over a run, every file that is not an audio chunk stays present and only grows at its end |
| CaptureRun.AbsentStaysAbsent | live_caption/live_caption.py:73-105 | a path that is absent and not a caption file stays absent for the rest of a run |
| CaptureRun.NoChunkSurvives | live_caption/live_caption.py:103-105 | no iteration's audio chunk exists at the end of a run, whatever the recorder and the transcriber did |
| CaptureRun.RunExtendsLog | live_caption/live_caption.py:71-105 | a run only adds log lines after the existing ones |
| CaptureRun.MainLoopFromStartUp | live_caption/live_caption.py:68-108 | `main_loop` logs its start first and its stop last; it records one session per change point; it ends with `last_app` equal to the last probed name and with no audio chunk left |
| Capture.CaptionLoop.constructor | live_caption/live_caption.py:40-42 | the three session globals start as `None`, with an empty log |
| Capture.CaptionLoop.TrackSession | live_caption/live_caption.py:76-82 | updates the globals, the caption file and the log in place exactly as the session tracker; `last_app` becomes the probed name |
| Capture.CaptionLoop.RecordAudio | live_caption/live_caption.py:87 | the recorder overwrites the chunk path or leaves the filesystem as it was |
| Capture.CaptionLoop.TranscribeChunk | live_caption/live_caption.py:89-101 | the size check, the transcription, the blank check and the append with its exception handler, exactly as the validation phase |
| Capture.CaptionLoop.RemoveChunk | live_caption/live_caption.py:103-105 | deletes the chunk and logs it when it exists; afterwards the chunk is absent |
| Capture.CaptionLoop.Step | live_caption/live_caption.py:74-105 | one pass of `while True` computes exactly one iteration of the model; afterwards `last_app` is the probed name and the chunk is gone |
| Capture.CaptionLoop.MainLoop | live_caption/live_caption.py:68-108 | the loop with its start and stop lines computes exactly `main_loop` over the given passes |
| CaptureScenarios.HeardStepCaption | live_caption/live_caption.py:89-95 | with a chunk over 1000 bytes and a clean transcript, the caption file gains the marker (on a switch) and exactly that transcript |
| CaptureScenarios.HeardStepOthers | live_caption/live_caption.py:89-105 | the same pass leaves exactly the old files plus the caption file, with other contents unchanged |
| CaptureScenarios.RunOfThree | live_caption/live_caption.py:73 | three passes of the loop are three iterations in a row |
| CaptureScenarios.FirstHeard | live_caption/live_caption.py:76-95 | the first pass after start-up opens the application's session and its file holds the marker and one entry |
| CaptureScenarios.SameAppHeard | live_caption/live_caption.py:76-95 | a further pass on the same application keeps the session and appends one entry to the same file |
| CaptureScenarios.SameAppTwice | live_caption/live_caption.py:73-105 | two passes on one application: one session, one file with one marker and two entries, no other file |
| CaptureScenarios.SwitchHeard | live_caption/live_caption.py:76-95 | a pass on another application opens a second caption file and leaves the first untouched |
| CaptureScenarios.SwitchAfterTwoCaptions | live_caption/live_caption.py:73-105 | probes "Mail", "Mail", "Browser" with speech in every chunk: two sessions and two caption files with the expected markers and entries, no chunk and no other file left |
| CaptureScenarios.ShortChunkSkipped | live_caption/live_caption.py:89-105 | a chunk of at most 1000 bytes is not transcribed; "empty or missing" is logged; nothing but a switch marker is written; the chunk is deleted |
| CaptureScenarios.NoCaptionWithoutText | live_caption/live_caption.py:89-105 | a blank transcript, a transcriber exception or a failing append writes no entry; the loop carries on and the chunk is deleted; the verdict line is "empty or missing" for an invalid chunk, else "no speech" for a blank transcript, else a transcription error with the transcriber's or the append's message, never "appended" |

## Left out

- Configuration loading and directory creation (lines 10-25) are left out. The two output directories are the `Config` parameter, and the other settings only affect the recorder, the transcriber and the logger.
- Logger setup and file rotation (lines 27-33) are left out. Log calls are modelled as a trace of `Event`s, without timestamps or formatting.
- Loading the Whisper model (lines 35-37) is left out.
- The transcriber's internals (line 62) are left out. Its outcome, a text or an exception, is an input of each pass; only the `.strip()` applied to it is modelled.
- `get_active_app_name` (lines 44-50) is left out. The AppKit probe is an input string. A failed probe yields the string "UnknownApp", which is just another input.
- `record_audio` (lines 55-59) is left out. The ffmpeg call is an input saying what, if anything, ends up at the chunk path. A failure to start ffmpeg, which would raise out of the loop, is not modelled.
- The clock is left out. `datetime.now().strftime(...)` readings are opaque input strings. Only `Naming.CaptionFilesOfDistinctStamps` and the scenarios built on it, `CaptureScenarios.SwitchHeard` and `CaptureScenarios.SwitchAfterTwoCaptions`, rely on their fixed width: they require the two session stamps to have the same length.
- The endless `while True` and `KeyboardInterrupt` (lines 73 and 107-108) are not modelled as such. A run is a finite sequence of passes that ends with the stop line. An interrupt in the middle of a pass is not modelled.
- Failures outside the handled ones are left out: writing the switch marker (lines 79-80) and `os.remove` (line 104) always succeed in the model. In the code such a failure ends the loop.
- File contents are character sequences, and a chunk's size in bytes is the length of its contents. Encodings are not modelled.
- File identity is the exact path string. macOS's default APFS volumes are case-insensitive, so paths that differ only in letter case (the caption files of "Mail" and "MAIL" with one stamp) are one file there but two files in the model. Every fact that two paths are different files holds only on a case-sensitive filesystem.
- A caption append that raises is all-or-nothing in the model: the caption file is left as it was. In the code, `open(caption_path, "a")` at line 93 creates the file before writing, and a write that fails part-way can leave part of the entry behind. The model does not capture either leftover.
- Concurrency with other processes writing the same directories is left out.
