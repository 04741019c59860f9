/**
 * The capture loop as the source runs it: the globals `last_app`,
 * `caption_path` and `session_start_time` updated in place, the filesystem
 * changed by appends and removals, and the log lines written as it goes
 * (live_caption/live_caption.py:40-42, 68-108).
 */
module Capture {
  import opened Wrappers
  import opened Naming
  import opened Transcript
  import opened CaptureSpec

  class CaptionLoop {
    const cfg: Config
    var lastApp: Option<string>
    var captionPath: Option<Path>
    var sessionStartTime: Option<string>
    var fs: FileSystem
    var log: seq<Event>

    /** The three session globals are set together, and the caption path is derived from the other two. */
    ghost predicate Valid()
      reads this
    {
      && (lastApp.Some? <==> captionPath.Some?)
      && (lastApp.Some? <==> sessionStartTime.Some?)
      && (lastApp.Some? ==> captionPath.value == CaptionFile(cfg.captionsDir, lastApp.value, sessionStartTime.value))
    }

    /** The loop's state as a value. */
    ghost function Current(): (st: State)
      reads this
      requires Valid()
      ensures WellFormed(cfg, st)
      ensures LastApp(st) == lastApp
    {
      State(if lastApp.Some? then Some(Session(lastApp.value, sessionStartTime.value, captionPath.value)) else None,
            fs, log)
    }

    /** Start-up: no session yet (all three globals `None`), an existing filesystem, an empty log. */
    constructor (cfg: Config, fs: FileSystem)
      ensures Valid() && this.cfg == cfg
      ensures Current() == State(None, fs, [])
    {
      this.cfg := cfg;
      lastApp, captionPath, sessionStartTime := None, None, None;
      this.fs := fs;
      log := [];
    }

    /** One pass through the body of `while True`. */
    method Step(t: Tick)
      requires Valid()
      modifies this
      ensures Valid()
      ensures Current() == Next(cfg, old(Current()), t)
      ensures lastApp == Some(t.app)
      ensures ChunkPath(cfg, t) !in fs
    {
      TrackSession(t);
      var audioFile := AudioChunkFile(cfg.audioDir, t.app, t.chunkStamp);
      RecordAudio(audioFile, t.recorded);
      TranscribeChunk(audioFile, t);
      RemoveChunk(audioFile);
    }

    /** On a change of application: a new session stamp and caption file, and the switch marker. */
    method TrackSession(t: Tick)
      requires Valid()
      modifies this
      ensures Valid()
      ensures Current() == Track(cfg, old(Current()), t)
      ensures lastApp == Some(t.app)
    {
      var activeApp := t.app;
      if Some(activeApp) != lastApp {
        sessionStartTime := Some(t.sessionStamp);
        captionPath := Some(CaptionFile(cfg.captionsDir, activeApp, t.sessionStamp));
        fs := AppendFile(fs, captionPath.value, SwitchMarker(activeApp, t.switchClock));
        log := log + [Switched(activeApp)];
        lastApp := Some(activeApp);
      }
    }

    /** The recorder's effect on the chunk path. */
    method RecordAudio(audioFile: Path, recorded: Option<string>)
      requires Valid()
      modifies this
      ensures Valid()
      ensures Current() == old(Current()).(fs := Record(old(fs), audioFile, recorded))
      ensures lastApp == old(lastApp)
    {
      if recorded.Some? {
        fs := fs[audioFile := recorded.value];
      }
    }

    /** Validation of the chunk, transcription, and the caption append inside its exception handler. */
    method TranscribeChunk(audioFile: Path, t: Tick)
      requires Valid() && lastApp.Some?
      modifies this
      ensures Valid()
      ensures Current() == Consume(old(Current()), audioFile, t)
      ensures lastApp == old(lastApp)
    {
      if audioFile in fs && |fs[audioFile]| > MinChunkBytes {
        match t.transcription {
          case Raised(message) =>
            log := log + [TranscriptionError(message)];
          case Transcribed(raw) =>
            var text := Strip(raw);
            if text != [] {
              match t.appendError {
                case Some(message) =>
                  log := log + [TranscriptionError(message)];
                case None =>
                  fs := AppendFile(fs, captionPath.value, CaptionEntry(t.entryClock, text));
                  log := log + [Appended(captionPath.value)];
              }
            } else {
              log := log + [NoSpeech(audioFile)];
            }
        }
      } else {
        log := log + [EmptyOrMissing(audioFile)];
      }
    }

    /** Deletes the chunk if it exists. */
    method RemoveChunk(audioFile: Path)
      requires Valid()
      modifies this
      ensures Valid()
      ensures Current() == Cleanup(old(Current()), audioFile)
      ensures lastApp == old(lastApp)
      ensures audioFile !in fs
    {
      if audioFile in fs {
        fs := fs - {audioFile};
        log := log + [Deleted(audioFile)];
      }
    }

    /** `main_loop`: start, the given iterations, then a stop by the user. */
    method MainLoop(ticks: seq<Tick>)
      requires Valid()
      modifies this
      ensures Valid()
      ensures Current() == CaptureSpec.MainLoop(cfg, old(Current()), ticks)
    {
      log := log + [Started];
      ghost var start := Current();
      for i := 0 to |ticks|
        invariant Valid()
        invariant Run(cfg, Current(), ticks[i..]) == Run(cfg, start, ticks)
      {
        assert ticks[i..][1..] == ticks[i + 1..];
        Step(ticks[i]);
      }
      log := log + [Stopped];
    }
  }
}
