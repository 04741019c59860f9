/**
 * One iteration of the capture loop of `main_loop`
 * (live_caption/live_caption.py:74-105) as a function on values.
 *
 * The tracked session stands for the globals `last_app`, `caption_path`
 * and `session_start_time`, which are all `None` before the first
 * iteration and are set together on every application switch. The
 * filesystem is a map from path to contents. What the loop reads from the
 * outside world in one iteration (the probed application, the clock, the
 * recorder's output, the transcriber's outcome, a failing caption write)
 * is one `Tick`; the logger calls are an event trace.
 */
module CaptureSpec {
  import opened Wrappers
  import opened Naming
  import opened Transcript

  type Path = string
  type FileSystem = map<Path, string>

  /** Chunks of this many bytes or fewer count as silence (`os.path.getsize(audio_file) > 1000`). */
  const MinChunkBytes: nat := 1000

  /** The configured output directories (`CAPTIONS_DIR`, `AUDIO_DIR`). */
  datatype Config = Config(captionsDir: Path, audioDir: Path)

  /** The active session: the probed application, its start stamp and its caption file. */
  datatype Session = Session(app: string, start: string, path: Path)

  /** What `model.transcribe(...)["text"]` produced: the raw text, or an exception. */
  datatype Transcription = Transcribed(raw: string) | Raised(message: string)

  /** Everything one iteration takes from outside the loop. */
  datatype Tick = Tick(
    app: string,                  // `get_active_app_name()`, "UnknownApp" when the probe fails
    sessionStamp: string,         // session start stamp, read only on a switch
    switchClock: string,          // clock printed in the switch marker
    chunkStamp: string,           // stamp in the audio chunk name
    recorded: Option<string>,     // what the recorder leaves at the chunk path, if it writes at all
    transcription: Transcription, // outcome of the transcriber, read only for a valid chunk
    entryClock: string,           // clock printed in the caption entry
    appendError: Option<string>   // `Some(message)` when appending the caption entry raises
  )

  /** The diagnostic log lines of the loop. */
  datatype Event =
    | Started
    | Switched(app: string)
    | Appended(caption: Path)
    | NoSpeech(chunk: Path)
    | TranscriptionError(message: string)
    | EmptyOrMissing(chunk: Path)
    | Deleted(chunk: Path)
    | Stopped

  /** The loop's state between iterations. */
  datatype State = State(session: Option<Session>, fs: FileSystem, log: seq<Event>)

  /** The contents of `p`, or nothing when it does not exist. */
  function Contents(fs: FileSystem, p: Path): string {
    if p in fs then fs[p] else []
  }

  /** `open(p, "a").write(text)`: creates `p` when absent and adds `text` at its end. */
  function AppendFile(fs: FileSystem, p: Path, text: string): (r: FileSystem)
    ensures r.Keys == fs.Keys + {p}
    ensures r[p] == Contents(fs, p) + text
    ensures forall q :: q in fs && q != p ==> r[q] == fs[q]
  {
    fs[p := Contents(fs, p) + text]
  }

  /** The line written when a new session starts. */
  function SwitchMarker(app: string, clock: string): string {
    "\n\n\U{1FA9F} Switched to App: " + app + " @ " + clock + "\n"
  }

  /** One caption entry. */
  function CaptionEntry(clock: string, text: string): string {
    "\n[" + clock + "]\n" + text + "\n"
  }

  /** The value of `last_app`. */
  function LastApp(st: State): Option<string> {
    if st.session.Some? then Some(st.session.value.app) else None
  }

  /** `active_app != last_app`: a new session starts. */
  predicate Switches(st: State, t: Tick) {
    LastApp(st) != Some(t.app)
  }

  /** The session fields agree: the caption path is the one derived from the other two. */
  predicate WellFormed(cfg: Config, st: State) {
    st.session.Some? ==>
      st.session.value.path == CaptionFile(cfg.captionsDir, st.session.value.app, st.session.value.start)
  }

  /** The session tracker: on a switch, a new session and its marker; otherwise nothing. */
  function Track(cfg: Config, st: State, t: Tick): State {
    if Switches(st, t) then
      var path := CaptionFile(cfg.captionsDir, t.app, t.sessionStamp);
      State(Some(Session(t.app, t.sessionStamp, path)),
            AppendFile(st.fs, path, SwitchMarker(t.app, t.switchClock)),
            st.log + [Switched(t.app)])
    else
      st
  }

  /** This iteration's audio chunk path. */
  function ChunkPath(cfg: Config, t: Tick): Path {
    AudioChunkFile(cfg.audioDir, t.app, t.chunkStamp)
  }

  /** `record_audio`: the recorder overwrites the chunk path, or leaves it as it was. */
  function Record(fs: FileSystem, chunk: Path, recorded: Option<string>): FileSystem {
    match recorded
    case Some(data) => fs[chunk := data]
    case None => fs
  }

  /** The chunk exists and is larger than the silence threshold. */
  predicate ChunkValid(fs: FileSystem, chunk: Path) {
    chunk in fs && |fs[chunk]| > MinChunkBytes
  }

  /** Validation, transcription and the caption append, with the exception handler. */
  function Consume(st: State, chunk: Path, t: Tick): State
    requires st.session.Some?
  {
    var caption := st.session.value.path;
    if !ChunkValid(st.fs, chunk) then
      st.(log := st.log + [EmptyOrMissing(chunk)])
    else
      match t.transcription
      case Raised(message) => st.(log := st.log + [TranscriptionError(message)])
      case Transcribed(raw) =>
        var text := Strip(raw);
        if text == [] then
          st.(log := st.log + [NoSpeech(chunk)])
        else
          match t.appendError
          case Some(message) => st.(log := st.log + [TranscriptionError(message)])
          case None =>
            st.(fs := AppendFile(st.fs, caption, CaptionEntry(t.entryClock, text)),
                log := st.log + [Appended(caption)])
  }

  /** Removes the chunk if it exists. */
  function Cleanup(st: State, chunk: Path): State {
    if chunk in st.fs then st.(fs := st.fs - {chunk}, log := st.log + [Deleted(chunk)]) else st
  }

  /** One whole iteration of the loop. */
  function Next(cfg: Config, st: State, t: Tick): State {
    var tracked := Track(cfg, st, t);
    var chunk := ChunkPath(cfg, t);
    var recorded := tracked.(fs := Record(tracked.fs, chunk, t.recorded));
    Cleanup(Consume(recorded, chunk, t), chunk)
  }

  /** The loop over a finite sequence of iterations. */
  function Run(cfg: Config, st: State, ticks: seq<Tick>): State
    decreases |ticks|
  {
    if ticks == [] then st else Run(cfg, Next(cfg, st, ticks[0]), ticks[1..])
  }

  /** `main_loop` from start to a stop by the user after the given iterations. */
  function MainLoop(cfg: Config, st: State, ticks: seq<Tick>): State {
    var r := Run(cfg, st.(log := st.log + [Started]), ticks);
    r.(log := r.log + [Stopped])
  }
}
