/**
 * Concrete runs of the capture loop: an application switch after two
 * captions, and a chunk at or under the size threshold.
 */
module CaptureScenarios {
  import opened Wrappers
  import opened Naming
  import opened Transcript
  import opened CaptureSpec
  import opened CaptureProperties
  import opened CaptureRun

  /** An iteration with a chunk of `audio` and a clean transcript `text`. */
  function Heard(app: string, stamp: string, audio: string, text: string): Tick {
    Tick(app, stamp, stamp, stamp, Some(audio), Transcribed(text), stamp, None)
  }

  /** One iteration with a valid chunk and a clean transcript: the caption file gains the entry. */
  lemma HeardStepCaption(cfg: Config, st: State, t: Tick, text: string)
    requires WellFormed(cfg, st)
    requires t.recorded.Some? && |t.recorded.value| > MinChunkBytes
    requires t.transcription == Transcribed(text) && t.appendError.None?
    requires text != [] && !IsSpace(text[0]) && !IsSpace(text[|text| - 1])
    ensures var path := SessionAfter(cfg, st, t).path;
      Contents(Next(cfg, st, t).fs, path)
        == Contents(st.fs, path)
         + (if Switches(st, t) then SwitchMarker(t.app, t.switchClock) else [])
         + CaptionEntry(t.entryClock, text)
  {
    StripUnpadded(text);
    assert Captioned(cfg, st, t);
    CaptionAfterStep(cfg, st, t);
  }

  /** One iteration with a valid chunk and a clean transcript: the other files. */
  lemma HeardStepOthers(cfg: Config, st: State, t: Tick, text: string)
    requires WellFormed(cfg, st)
    requires ChunkPath(cfg, t) !in st.fs
    requires t.recorded.Some? && |t.recorded.value| > MinChunkBytes
    requires t.transcription == Transcribed(text) && t.appendError.None?
    requires text != [] && !IsSpace(text[0]) && !IsSpace(text[|text| - 1])
    ensures var r := Next(cfg, st, t);
      var path := SessionAfter(cfg, st, t).path;
      && (forall p :: p in r.fs <==> p in st.fs || p == path)
      && (forall p :: p in st.fs && p != path ==> r.fs[p] == st.fs[p])
  {
    StripUnpadded(text);
    assert Captioned(cfg, st, t);
    OtherFilesAfterStep(cfg, st, t);
  }

  /** Three iterations in a row, through the intermediate states. */
  lemma RunOfThree(cfg: Config, s0: State, s1: State, s2: State, s3: State, t0: Tick, t1: Tick, t2: Tick)
    requires s1 == Next(cfg, s0, t0) && s2 == Next(cfg, s1, t1) && s3 == Next(cfg, s2, t2)
    ensures Run(cfg, s0, [t0, t1, t2]) == s3
  {
    assert [t0, t1, t2][1..] == [t1, t2];
    assert Run(cfg, s0, [t0, t1, t2]) == Run(cfg, s1, [t1, t2]);
    assert [t1, t2][1..] == [t2];
    assert Run(cfg, s1, [t1, t2]) == Run(cfg, s2, [t2]);
    assert [t2][1..] == [];
    assert Run(cfg, s2, [t2]) == Run(cfg, s3, []);
  }

  /** The first iteration after start-up opens the application's session and captions into it. */
  lemma FirstHeard(cfg: Config, mail: string, stamp0: string, audio: string, text: string, s1: State)
    requires |audio| > MinChunkBytes
    requires text != [] && !IsSpace(text[0]) && !IsSpace(text[|text| - 1])
    requires s1 == Next(cfg, State(None, map[], []), Heard(mail, stamp0, audio, text))
    ensures var mailFile := CaptionFile(cfg.captionsDir, mail, stamp0);
      && s1.session == Some(Session(mail, stamp0, mailFile))
      && WellFormed(cfg, s1)
      && SwitchCount(s1.log) == 1
      && (forall p :: p in s1.fs <==> p == mailFile)
      && Contents(s1.fs, mailFile) == SwitchMarker(mail, stamp0) + CaptionEntry(stamp0, text)
  {
    var t0 := Heard(mail, stamp0, audio, text);
    var s0 := State(None, map[], []);
    HeardStepCaption(cfg, s0, t0, text);
    HeardStepOthers(cfg, s0, t0, text);
    NextSession(cfg, s0, t0);
    SwitchCountStep(cfg, s0, t0);
    assert [] + SwitchMarker(mail, stamp0) == SwitchMarker(mail, stamp0);
  }

  /** A further iteration on the application of the open session captions into the same file. */
  lemma SameAppHeard(cfg: Config, mail: string, stamp0: string, stamp1: string,
                     audio: string, text: string, before: string, s1: State, s2: State)
    requires |audio| > MinChunkBytes
    requires text != [] && !IsSpace(text[0]) && !IsSpace(text[|text| - 1])
    requires WellFormed(cfg, s1)
    requires s1.session == Some(Session(mail, stamp0, CaptionFile(cfg.captionsDir, mail, stamp0)))
    requires forall p :: p in s1.fs <==> p == CaptionFile(cfg.captionsDir, mail, stamp0)
    requires Contents(s1.fs, CaptionFile(cfg.captionsDir, mail, stamp0)) == before
    requires s2 == Next(cfg, s1, Heard(mail, stamp1, audio, text))
    ensures var mailFile := CaptionFile(cfg.captionsDir, mail, stamp0);
      && s2.session == s1.session
      && WellFormed(cfg, s2)
      && SwitchCount(s2.log) == SwitchCount(s1.log)
      && (forall p :: p in s2.fs <==> p == mailFile)
      && Contents(s2.fs, mailFile) == before + CaptionEntry(stamp1, text)
  {
    var t1 := Heard(mail, stamp1, audio, text);
    var mailFile := CaptionFile(cfg.captionsDir, mail, stamp0);
    assert !Switches(s1, t1);
    assert SessionAfter(cfg, s1, t1) == s1.session.value;
    assert Contents(s2.fs, mailFile) == before + CaptionEntry(stamp1, text) by {
      HeardStepCaption(cfg, s1, t1, text);
    }
    assert forall p :: p in s2.fs <==> p == mailFile by {
      CaptionFileIsNotChunk(cfg.captionsDir, mail, stamp0, cfg.audioDir, mail, stamp1);
      HeardStepOthers(cfg, s1, t1, text);
    }
    NextSession(cfg, s1, t1);
    SwitchCountStep(cfg, s1, t1);
  }

  /** Start-up followed by two iterations on the same application, with speech in both chunks. */
  lemma SameAppTwice(cfg: Config, mail: string, stamp0: string, stamp1: string, audio: string, text: string,
                     s1: State, s2: State)
    requires |audio| > MinChunkBytes
    requires text != [] && !IsSpace(text[0]) && !IsSpace(text[|text| - 1])
    requires s1 == Next(cfg, State(None, map[], []), Heard(mail, stamp0, audio, text))
    requires s2 == Next(cfg, s1, Heard(mail, stamp1, audio, text))
    ensures var mailFile := CaptionFile(cfg.captionsDir, mail, stamp0);
      && s2.session == Some(Session(mail, stamp0, mailFile))
      && WellFormed(cfg, s2)
      && SwitchCount(s2.log) == 1
      && (forall p :: p in s2.fs <==> p == mailFile)
      && Contents(s2.fs, mailFile) == SwitchMarker(mail, stamp0) + CaptionEntry(stamp0, text) + CaptionEntry(stamp1, text)
  {
    FirstHeard(cfg, mail, stamp0, audio, text, s1);
    SameAppHeard(cfg, mail, stamp0, stamp1, audio, text,
                 SwitchMarker(mail, stamp0) + CaptionEntry(stamp0, text), s1, s2);
  }

  /** A switch to another application, from a state with one session open, adds a second caption file. */
  lemma SwitchHeard(cfg: Config, mail: string, stamp0: string, browser: string, stamp2: string,
                    audio: string, text: string, before: string, s2: State, s3: State)
    requires mail != browser
    requires |stamp0| == |stamp2| && stamp0 != stamp2
    requires |audio| > MinChunkBytes
    requires text != [] && !IsSpace(text[0]) && !IsSpace(text[|text| - 1])
    requires WellFormed(cfg, s2)
    requires s2.session == Some(Session(mail, stamp0, CaptionFile(cfg.captionsDir, mail, stamp0)))
    requires forall p :: p in s2.fs <==> p == CaptionFile(cfg.captionsDir, mail, stamp0)
    requires Contents(s2.fs, CaptionFile(cfg.captionsDir, mail, stamp0)) == before
    requires s3 == Next(cfg, s2, Heard(browser, stamp2, audio, text))
    ensures var mailFile := CaptionFile(cfg.captionsDir, mail, stamp0);
      var browserFile := CaptionFile(cfg.captionsDir, browser, stamp2);
      && SwitchCount(s3.log) == SwitchCount(s2.log) + 1
      && (forall p :: p in s3.fs <==> p == mailFile || p == browserFile)
      && Contents(s3.fs, mailFile) == before
      && Contents(s3.fs, browserFile) == SwitchMarker(browser, stamp2) + CaptionEntry(stamp2, text)
  {
    var t2 := Heard(browser, stamp2, audio, text);
    var mailFile := CaptionFile(cfg.captionsDir, mail, stamp0);
    var browserFile := CaptionFile(cfg.captionsDir, browser, stamp2);
    CaptionFilesOfDistinctStamps(cfg.captionsDir, mail, stamp0, cfg.captionsDir, browser, stamp2);
    assert Switches(s2, t2);
    assert SessionAfter(cfg, s2, t2).path == browserFile;
    assert browserFile !in s2.fs;
    assert Contents(s3.fs, browserFile) == SwitchMarker(browser, stamp2) + CaptionEntry(stamp2, text) by {
      HeardStepCaption(cfg, s2, t2, text);
      assert [] + SwitchMarker(browser, stamp2) == SwitchMarker(browser, stamp2);
    }
    assert (forall p :: p in s3.fs <==> p == mailFile || p == browserFile) && Contents(s3.fs, mailFile) == before by {
      CaptionFileIsNotChunk(cfg.captionsDir, mail, stamp0, cfg.audioDir, browser, stamp2);
      HeardStepOthers(cfg, s2, t2, text);
    }
    SwitchCountStep(cfg, s2, t2);
  }

  /**
   * Probing one application twice and then another (say "Mail", "Mail",
   * "Browser") with speech in every chunk: two sessions; the first
   * application's caption file holds its marker and two entries, the
   * second's its marker and one entry; no chunk and no other file remains.
   */
  lemma SwitchAfterTwoCaptions(cfg: Config, mail: string, browser: string,
                               stamp0: string, stamp1: string, stamp2: string,
                               audio: string, text: string)
    requires mail != browser
    requires |stamp0| == |stamp2| && stamp0 != stamp2
    requires |audio| > MinChunkBytes
    requires text != [] && !IsSpace(text[0]) && !IsSpace(text[|text| - 1])
    ensures var ticks := [Heard(mail, stamp0, audio, text), Heard(mail, stamp1, audio, text), Heard(browser, stamp2, audio, text)];
      var r := Run(cfg, State(None, map[], []), ticks);
      var mailFile := CaptionFile(cfg.captionsDir, mail, stamp0);
      var browserFile := CaptionFile(cfg.captionsDir, browser, stamp2);
      && SwitchCount(r.log) == 2
      && (forall p :: p in r.fs <==> p == mailFile || p == browserFile)
      && Contents(r.fs, mailFile) == SwitchMarker(mail, stamp0) + CaptionEntry(stamp0, text) + CaptionEntry(stamp1, text)
      && Contents(r.fs, browserFile) == SwitchMarker(browser, stamp2) + CaptionEntry(stamp2, text)
  {
    var t0, t1, t2 := Heard(mail, stamp0, audio, text), Heard(mail, stamp1, audio, text), Heard(browser, stamp2, audio, text);
    var s0 := State(None, map[], []);
    var s1 := Next(cfg, s0, t0);
    var s2 := Next(cfg, s1, t1);
    var s3 := Next(cfg, s2, t2);
    RunOfThree(cfg, s0, s1, s2, s3, t0, t1, t2);
    SameAppTwice(cfg, mail, stamp0, stamp1, audio, text, s1, s2);
    SwitchHeard(cfg, mail, stamp0, browser, stamp2, audio, text,
                SwitchMarker(mail, stamp0) + CaptionEntry(stamp0, text) + CaptionEntry(stamp1, text), s2, s3);
  }

  /**
   * A chunk of at most 1000 bytes (a 200-byte one, or one of exactly 1000)
   * is not transcribed: no transcriber line, an "empty or missing" line,
   * nothing appended to the caption file beyond a switch marker, and the
   * chunk is deleted.
   */
  lemma ShortChunkSkipped(cfg: Config, st: State, t: Tick)
    requires WellFormed(cfg, st)
    requires t.recorded.Some? && |t.recorded.value| <= MinChunkBytes
    ensures var r := Next(cfg, st, t);
      var events := r.log[|st.log|..];
      var path := SessionAfter(cfg, st, t).path;
      && !(exists e :: e in events && FromTranscriber(e))
      && EmptyOrMissing(ChunkPath(cfg, t)) in events
      && Deleted(ChunkPath(cfg, t)) in events
      && Contents(r.fs, path) == Contents(st.fs, path) + (if Switches(st, t) then SwitchMarker(t.app, t.switchClock) else [])
      && ChunkPath(cfg, t) !in r.fs
  {
    EventsAfterStep(cfg, st, t);
    CaptionAfterStep(cfg, st, t);
    OtherFilesAfterStep(cfg, st, t);
  }

  /**
   * A transcript that is blank after stripping, or a transcriber that
   * raises, or a caption append that raises: the loop carries on, nothing
   * is appended beyond a switch marker, the chunk is deleted, and the line
   * after the optional switch line says why no caption was written.
   */
  lemma NoCaptionWithoutText(cfg: Config, st: State, t: Tick)
    requires WellFormed(cfg, st)
    requires || (t.transcription.Transcribed? && AllSpace(t.transcription.raw))
             || t.transcription.Raised?
             || t.appendError.Some?
    ensures var r := Next(cfg, st, t);
      var path := SessionAfter(cfg, st, t).path;
      && Contents(r.fs, path) == Contents(st.fs, path) + (if Switches(st, t) then SwitchMarker(t.app, t.switchClock) else [])
      && ChunkPath(cfg, t) !in r.fs
      && LastApp(r) == Some(t.app)
    ensures |st.log| + |SwitchLines(st, t)| < |Next(cfg, st, t).log|
    ensures var v := Next(cfg, st, t).log[|st.log| + |SwitchLines(st, t)|];
      var runs := TranscriberRuns(cfg, st, t);
      && !v.Appended?
      && (!runs ==> v == EmptyOrMissing(ChunkPath(cfg, t)))
      && (runs && t.transcription.Raised? ==> v == TranscriptionError(t.transcription.message))
      && (runs && t.transcription.Transcribed? && AllSpace(t.transcription.raw) ==> v == NoSpeech(ChunkPath(cfg, t)))
      && (runs && t.transcription.Transcribed? && !AllSpace(t.transcription.raw) ==>
            t.appendError.Some? && v == TranscriptionError(t.appendError.value))
  {
    assert !Captioned(cfg, st, t) by {
      if t.transcription.Transcribed? {
        var raw := t.transcription.raw;
        assert Strip(raw) == [] <==> AllSpace(raw);
      }
    }
    CaptionAfterStep(cfg, st, t);
    OtherFilesAfterStep(cfg, st, t);
    NextSession(cfg, st, t);
    VerdictOfStep(cfg, st, t);
  }
}
