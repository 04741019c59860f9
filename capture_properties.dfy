/**
 * What the capture loop guarantees, per iteration and over a whole run:
 * session switching, the size threshold, caption entries, append-only
 * caption files and unconditional chunk cleanup.
 */
module CaptureProperties {
  import opened Wrappers
  import opened Naming
  import opened Transcript
  import opened CaptureSpec

  /** The contents at the chunk path once the recorder has run, read from the inputs alone. */
  function ChunkAfterRecording(cfg: Config, st: State, t: Tick): Option<string> {
    var chunk := ChunkPath(cfg, t);
    if t.recorded.Some? then t.recorded
    else if chunk in st.fs then Some(st.fs[chunk])
    else None
  }

  /** The transcriber runs: the chunk exists and is strictly larger than the threshold. */
  predicate TranscriberRuns(cfg: Config, st: State, t: Tick) {
    var c := ChunkAfterRecording(cfg, st, t);
    c.Some? && |c.value| > MinChunkBytes
  }

  /** A caption entry is due: valid chunk, non-blank transcript, and the append does not raise. */
  predicate Captioned(cfg: Config, st: State, t: Tick) {
    && TranscriberRuns(cfg, st, t)
    && t.transcription.Transcribed?
    && Strip(t.transcription.raw) != []
    && t.appendError.None?
  }

  /** A log line that only the `try` block around the transcriber writes. */
  predicate FromTranscriber(e: Event) {
    e.Appended? || e.NoSpeech? || e.TranscriptionError?
  }

  /** The session this iteration writes to. */
  function SessionAfter(cfg: Config, st: State, t: Tick): Session {
    if Switches(st, t) then Session(t.app, t.sessionStamp, CaptionFile(cfg.captionsDir, t.app, t.sessionStamp))
    else st.session.value
  }

  /** The chunk path never names the caption file of a well-formed session. */
  lemma ChunkIsNotCaption(cfg: Config, st: State, t: Tick)
    requires WellFormed(cfg, st)
    ensures SessionAfter(cfg, st, t).path != ChunkPath(cfg, t)
  {
    var s := SessionAfter(cfg, st, t);
    CaptionFileIsNotChunk(cfg.captionsDir, s.app, s.start, cfg.audioDir, t.app, t.chunkStamp);
  }

  /** The session tracker touches the session's caption file and the log, nothing else. */
  lemma TrackEffect(cfg: Config, st: State, t: Tick)
    ensures var tr := Track(cfg, st, t);
      var path := SessionAfter(cfg, st, t).path;
      && tr.session == Some(SessionAfter(cfg, st, t))
      && tr.log == st.log + (if Switches(st, t) then [Switched(t.app)] else [])
      && Contents(tr.fs, path) == Contents(st.fs, path) + (if Switches(st, t) then SwitchMarker(t.app, t.switchClock) else [])
      && (Switches(st, t) || path in st.fs ==> path in tr.fs)
      && (forall p :: p != path ==> (p in tr.fs <==> p in st.fs) && Contents(tr.fs, p) == Contents(st.fs, p))
  {
  }

  /** Validation, transcription and append: one log line, and at most one caption entry. */
  lemma ConsumeEffect(st: State, chunk: Path, t: Tick)
    requires st.session.Some? && st.session.value.path != chunk
    ensures var con := Consume(st, chunk, t);
      var path := st.session.value.path;
      var due := ChunkValid(st.fs, chunk) && t.transcription.Transcribed? && Strip(t.transcription.raw) != [] && t.appendError.None?;
      && con.session == st.session
      && |con.log| == |st.log| + 1 && con.log[..|st.log|] == st.log
      && (FromTranscriber(con.log[|st.log|]) <==> ChunkValid(st.fs, chunk))
      && (con.log[|st.log|] == EmptyOrMissing(chunk) <==> !ChunkValid(st.fs, chunk))
      && !con.log[|st.log|].Switched?
      && Contents(con.fs, path) == Contents(st.fs, path) + (if due then CaptionEntry(t.entryClock, Strip(t.transcription.raw)) else [])
      && (due || path in st.fs ==> path in con.fs)
      && (forall p :: p != path ==> (p in con.fs <==> p in st.fs) && Contents(con.fs, p) == Contents(st.fs, p))
  {
  }

  /**
   * The one line the chunk check and the `try` block log, given whether the
   * chunk is valid (`runs`): "empty or missing" exactly when it is not;
   * "no speech" exactly when the transcript is blank; an error carrying the
   * exception's message exactly when the transcriber raises or, for a
   * transcript with text, the caption append raises; "appended" to the
   * caption file exactly when neither happens.
   */
  predicate VerdictOf(v: Event, runs: bool, chunk: Path, caption: Path, t: Tick) {
    && (v.EmptyOrMissing? <==> !runs)
    && (v.NoSpeech? <==> runs && t.transcription.Transcribed? && AllSpace(t.transcription.raw))
    && (v.EmptyOrMissing? || v.NoSpeech? ==> v.chunk == chunk)
    && (v.TranscriptionError? <==>
          runs && (t.transcription.Raised? || (!AllSpace(t.transcription.raw) && t.appendError.Some?)))
    && (v.TranscriptionError? && t.transcription.Raised? ==> v.message == t.transcription.message)
    && (v.TranscriptionError? && t.transcription.Transcribed? && t.appendError.Some? ==> v.message == t.appendError.value)
    && (v.Appended? <==>
          runs && t.transcription.Transcribed? && !AllSpace(t.transcription.raw) && t.appendError.None?)
    && (v.Appended? ==> v.caption == caption)
  }

  /** The line validation and the `try` block add to the log. */
  lemma ConsumeVerdict(st: State, chunk: Path, t: Tick)
    requires st.session.Some?
    ensures var con := Consume(st, chunk, t);
      && |con.log| == |st.log| + 1
      && VerdictOf(con.log[|st.log|], ChunkValid(st.fs, chunk), chunk, st.session.value.path, t)
  {
    if ChunkValid(st.fs, chunk) && t.transcription.Transcribed? {
      var raw := t.transcription.raw;
      assert Strip(raw) == [] <==> AllSpace(raw);
    }
  }

  /** The phases of one iteration, with the chunk path kept apart from the caption file. */
  lemma StepPhases(cfg: Config, st: State, t: Tick)
    requires WellFormed(cfg, st)
    ensures var chunk := ChunkPath(cfg, t);
      var tr := Track(cfg, st, t);
      var rec := tr.(fs := Record(tr.fs, chunk, t.recorded));
      && tr.session.Some?
      && tr.session.value.path != chunk
      && (ChunkValid(rec.fs, chunk) <==> TranscriberRuns(cfg, st, t))
      && (chunk in rec.fs <==> ChunkAfterRecording(cfg, st, t).Some?)
      && Contents(rec.fs, tr.session.value.path) == Contents(tr.fs, tr.session.value.path)
      && (forall p :: p != chunk ==> (p in rec.fs <==> p in tr.fs) && Contents(rec.fs, p) == Contents(tr.fs, p))
      && Next(cfg, st, t) == Cleanup(Consume(rec, chunk, t), chunk)
  {
    ChunkIsNotCaption(cfg, st, t);
    TrackEffect(cfg, st, t);
  }

  /** Validation, transcription and cleanup leave the session alone. */
  lemma LaterPhasesKeepSession(st: State, chunk: Path, t: Tick)
    requires st.session.Some?
    ensures Cleanup(Consume(st, chunk, t), chunk).session == st.session
  {
  }

  /**
   * Session switching: after every iteration `last_app` is the probed name;
   * a switch happens exactly when that name differs from the previous one
   * (always on the first iteration) and installs a fresh session; otherwise
   * the session is kept as it was.
   */
  lemma NextSession(cfg: Config, st: State, t: Tick)
    ensures st.session.None? ==> Switches(st, t)
    ensures Next(cfg, st, t).session == Some(SessionAfter(cfg, st, t))
    ensures Switches(st, t) ==>
      SessionAfter(cfg, st, t) == Session(t.app, t.sessionStamp, CaptionFile(cfg.captionsDir, t.app, t.sessionStamp))
    ensures !Switches(st, t) ==> Next(cfg, st, t).session == st.session
    ensures LastApp(Next(cfg, st, t)) == Some(t.app)
    ensures WellFormed(cfg, st) ==> WellFormed(cfg, Next(cfg, st, t))
  {
    var tr := Track(cfg, st, t);
    var chunk := ChunkPath(cfg, t);
    TrackEffect(cfg, st, t);
    LaterPhasesKeepSession(tr.(fs := Record(tr.fs, chunk, t.recorded)), chunk, t);
  }

  /**
   * The caption file of the session after the iteration: its old contents,
   * then the switch marker if the iteration switched, then the stripped
   * transcript as one entry if and only if an entry is due.
   */
  lemma CaptionAfterStep(cfg: Config, st: State, t: Tick)
    requires WellFormed(cfg, st)
    ensures var path := SessionAfter(cfg, st, t).path;
      Contents(Next(cfg, st, t).fs, path)
        == Contents(st.fs, path)
         + (if Switches(st, t) then SwitchMarker(t.app, t.switchClock) else [])
         + (if Captioned(cfg, st, t) then CaptionEntry(t.entryClock, Strip(t.transcription.raw)) else [])
  {
    var chunk := ChunkPath(cfg, t);
    var tr := Track(cfg, st, t);
    var rec := tr.(fs := Record(tr.fs, chunk, t.recorded));
    TrackEffect(cfg, st, t);
    StepPhases(cfg, st, t);
    ConsumeEffect(rec, chunk, t);
  }

  /**
   * Nothing else changes: every file other than the session's caption file
   * and this iteration's chunk keeps its presence and its contents, and the
   * chunk is gone at the end of the iteration whatever happened before.
   */
  lemma OtherFilesAfterStep(cfg: Config, st: State, t: Tick)
    requires WellFormed(cfg, st)
    ensures ChunkPath(cfg, t) !in Next(cfg, st, t).fs
    ensures (Switches(st, t) || Captioned(cfg, st, t) || SessionAfter(cfg, st, t).path in st.fs) ==>
      SessionAfter(cfg, st, t).path in Next(cfg, st, t).fs
    ensures forall p :: p != SessionAfter(cfg, st, t).path && p != ChunkPath(cfg, t) ==>
      (p in Next(cfg, st, t).fs <==> p in st.fs) && Contents(Next(cfg, st, t).fs, p) == Contents(st.fs, p)
  {
    var chunk := ChunkPath(cfg, t);
    var tr := Track(cfg, st, t);
    var rec := tr.(fs := Record(tr.fs, chunk, t.recorded));
    TrackEffect(cfg, st, t);
    StepPhases(cfg, st, t);
    ConsumeEffect(rec, chunk, t);
  }

  /** How many sessions a log records. */
  function SwitchCount(log: seq<Event>): nat {
    if log == [] then 0 else SwitchCount(log[..|log| - 1]) + (if log[|log| - 1].Switched? then 1 else 0)
  }

  /** Counting sessions distributes over concatenated logs. */
  lemma {:induction false} SwitchCountConcat(a: seq<Event>, b: seq<Event>)
    ensures SwitchCount(a + b) == SwitchCount(a) + SwitchCount(b)
    decreases |b|
  {
    if b != [] {
      var b' := b[..|b| - 1];
      assert (a + b)[..|a + b| - 1] == a + b';
      assert (a + b)[|a + b| - 1] == b[|b| - 1];
      SwitchCountConcat(a, b');
    } else {
      assert a + b == a;
    }
  }

  /** The log line of a switch, when the iteration switches. */
  function SwitchLines(st: State, t: Tick): seq<Event> {
    if Switches(st, t) then [Switched(t.app)] else []
  }

  /** The log line of the chunk's deletion, when there is a chunk to delete. */
  function CleanupLines(cfg: Config, st: State, t: Tick): seq<Event> {
    if ChunkAfterRecording(cfg, st, t).Some? then [Deleted(ChunkPath(cfg, t))] else []
  }

  /** `log` is `prefix`, then `switchEvents`, then one line that is not a switch, then `cleanupEvents`. */
  predicate ExtendsBy(log: seq<Event>, prefix: seq<Event>, switchEvents: seq<Event>, cleanupEvents: seq<Event>) {
    var k := |prefix| + |switchEvents|;
    && |log| == k + 1 + |cleanupEvents|
    && log[..k] == prefix + switchEvents
    && log[k + 1..] == cleanupEvents
    && !log[k].Switched?
  }

  /** The log lines of one iteration: an optional switch, one verdict on the chunk, an optional deletion. */
  lemma StepLog(cfg: Config, st: State, t: Tick)
    requires WellFormed(cfg, st)
    ensures var r := Next(cfg, st, t);
      var k := |st.log| + |SwitchLines(st, t)|;
      && ExtendsBy(r.log, st.log, SwitchLines(st, t), CleanupLines(cfg, st, t))
      && (FromTranscriber(r.log[k]) <==> TranscriberRuns(cfg, st, t))
      && (r.log[k] == EmptyOrMissing(ChunkPath(cfg, t)) <==> !TranscriberRuns(cfg, st, t))
  {
    var chunk := ChunkPath(cfg, t);
    var tr := Track(cfg, st, t);
    var rec := tr.(fs := Record(tr.fs, chunk, t.recorded));
    TrackEffect(cfg, st, t);
    StepPhases(cfg, st, t);
    ConsumeEffect(rec, chunk, t);
  }

  /**
   * The verdict line of one iteration, the one after the optional switch
   * line: what it says about the chunk, the transcript, and the session's
   * caption file.
   */
  lemma VerdictOfStep(cfg: Config, st: State, t: Tick)
    requires WellFormed(cfg, st)
    ensures |st.log| + |SwitchLines(st, t)| < |Next(cfg, st, t).log|
    ensures VerdictOf(Next(cfg, st, t).log[|st.log| + |SwitchLines(st, t)|], TranscriberRuns(cfg, st, t),
                      ChunkPath(cfg, t), SessionAfter(cfg, st, t).path, t)
  {
    var chunk := ChunkPath(cfg, t);
    var tr := Track(cfg, st, t);
    var rec := tr.(fs := Record(tr.fs, chunk, t.recorded));
    TrackEffect(cfg, st, t);
    StepPhases(cfg, st, t);
    ConsumeVerdict(rec, chunk, t);
    var con := Consume(rec, chunk, t);
    assert |rec.log| == |st.log| + |SwitchLines(st, t)|;
    assert Cleanup(con, chunk).log[|rec.log|] == con.log[|rec.log|];
  }

  /** A log cut into the old log and the lines one iteration adds. */
  lemma SplitLog(log: seq<Event>, prefix: seq<Event>, switchEvents: seq<Event>, cleanupEvents: seq<Event>)
    requires ExtendsBy(log, prefix, switchEvents, cleanupEvents)
    ensures log[..|prefix|] == prefix
    ensures log[|prefix|..] == switchEvents + [log[|prefix| + |switchEvents|]] + cleanupEvents
  {
    var k := |prefix| + |switchEvents|;
    assert log == log[..k] + [log[k]] + log[k + 1..];
  }

  /** What the lines of one iteration say, whatever the iteration. */
  lemma IterationLines(switchEvents: seq<Event>, verdict: Event, cleanupEvents: seq<Event>, app: string, chunk: Path)
    requires switchEvents == [] || switchEvents == [Switched(app)]
    requires cleanupEvents == [] || cleanupEvents == [Deleted(chunk)]
    requires !verdict.Switched?
    ensures var events := switchEvents + [verdict] + cleanupEvents;
      && ((exists e :: e in events && FromTranscriber(e)) <==> FromTranscriber(verdict))
      && (EmptyOrMissing(chunk) in events <==> verdict == EmptyOrMissing(chunk))
      && (Deleted(chunk) in events <==> cleanupEvents != [] || verdict == Deleted(chunk))
      && SwitchCount(events) == |switchEvents|
  {
    var events := switchEvents + [verdict] + cleanupEvents;
    SwitchCountConcat(switchEvents, [verdict]);
    SwitchCountConcat(switchEvents + [verdict], cleanupEvents);
    assert SwitchCount([verdict]) == 0 by {
      assert [verdict][..0] == [];
    }
    assert SwitchCount(cleanupEvents) == 0 by {
      if cleanupEvents != [] { assert cleanupEvents[..0] == []; }
    }
    assert SwitchCount(switchEvents) == |switchEvents| by {
      if switchEvents != [] { assert switchEvents[..0] == []; }
    }
  }

  /**
   * The log of one iteration: it extends the old log; the transcriber's
   * outcome is logged exactly when the chunk is valid, "empty or missing"
   * exactly when it is not; the chunk's deletion is logged exactly when
   * it existed. `CaptureRun.SwitchCountStep` states how many sessions it adds.
   */
  lemma EventsAfterStep(cfg: Config, st: State, t: Tick)
    requires WellFormed(cfg, st)
    ensures var log := Next(cfg, st, t).log;
      && |st.log| <= |log| && log[..|st.log|] == st.log
      && var events := log[|st.log|..];
      && ((exists e :: e in events && FromTranscriber(e)) <==> TranscriberRuns(cfg, st, t))
      && (EmptyOrMissing(ChunkPath(cfg, t)) in events <==> !TranscriberRuns(cfg, st, t))
      && (Deleted(ChunkPath(cfg, t)) in events <==> ChunkAfterRecording(cfg, st, t).Some?)
  {
    var log := Next(cfg, st, t).log;
    StepLog(cfg, st, t);
    SplitLog(log, st.log, SwitchLines(st, t), CleanupLines(cfg, st, t));
    IterationLines(SwitchLines(st, t), log[|st.log| + |SwitchLines(st, t)|], CleanupLines(cfg, st, t),
                   t.app, ChunkPath(cfg, t));
  }
}
