/**
 * Properties of the capture loop over a finite run of iterations, the
 * bounded counterpart of `while True` in `main_loop`
 * (live_caption/live_caption.py:73-105).
 */
module CaptureRun {
  import opened Wrappers
  import opened Naming
  import opened CaptureSpec
  import opened CaptureProperties

  /** The probed application names of a run, in order. */
  function Apps(ticks: seq<Tick>): (apps: seq<string>)
    ensures |apps| == |ticks|
    ensures forall i :: 0 <= i < |ticks| ==> apps[i] == ticks[i].app
  {
    seq(|ticks|, i requires 0 <= i < |ticks| => ticks[i].app)
  }

  /**
   * The number of positions at which a name differs from the name before
   * it, where the name before the first one is `prev` (`None` at start-up,
   * so that the first probe always counts).
   */
  function Changes(prev: Option<string>, apps: seq<string>): nat
    decreases |apps|
  {
    if apps == [] then 0
    else (if prev != Some(apps[0]) then 1 else 0) + Changes(Some(apps[0]), apps[1..])
  }

  /** Every iteration keeps the session fields consistent. */
  lemma {:induction false} RunWellFormed(cfg: Config, st: State, ticks: seq<Tick>)
    requires WellFormed(cfg, st)
    ensures WellFormed(cfg, Run(cfg, st, ticks))
    decreases |ticks|
  {
    if ticks != [] {
      NextSession(cfg, st, ticks[0]);
      RunWellFormed(cfg, Next(cfg, st, ticks[0]), ticks[1..]);
    }
  }

  /** After a non-empty run, `last_app` is the last probed name. */
  lemma {:induction false} RunLastApp(cfg: Config, st: State, ticks: seq<Tick>)
    requires ticks != []
    ensures LastApp(Run(cfg, st, ticks)) == Some(ticks[|ticks| - 1].app)
    decreases |ticks|
  {
    NextSession(cfg, st, ticks[0]);
    if |ticks| > 1 {
      RunLastApp(cfg, Next(cfg, st, ticks[0]), ticks[1..]);
    }
  }

  /** One iteration records one session exactly when it switches. */
  lemma SwitchCountStep(cfg: Config, st: State, t: Tick)
    requires WellFormed(cfg, st)
    ensures SwitchCount(Next(cfg, st, t).log) == SwitchCount(st.log) + if Switches(st, t) then 1 else 0
  {
    StepLog(cfg, st, t);
    LogSwitchCount(Next(cfg, st, t).log, st.log, SwitchLines(st, t), CleanupLines(cfg, st, t), t.app, ChunkPath(cfg, t));
  }

  /** The switches recorded in a log that one iteration extended. */
  lemma LogSwitchCount(log: seq<Event>, prefix: seq<Event>, switchEvents: seq<Event>,
                       cleanupEvents: seq<Event>, app: string, chunk: Path)
    requires switchEvents == [] || switchEvents == [Switched(app)]
    requires cleanupEvents == [] || cleanupEvents == [Deleted(chunk)]
    requires ExtendsBy(log, prefix, switchEvents, cleanupEvents)
    ensures SwitchCount(log) == SwitchCount(prefix) + |switchEvents|
  {
    SplitLog(log, prefix, switchEvents, cleanupEvents);
    IterationLines(switchEvents, log[|prefix| + |switchEvents|], cleanupEvents, app, chunk);
    var events := log[|prefix|..];
    assert log == log[..|prefix|] + events;
    SwitchCountConcat(prefix, events);
  }

  /** The run adds one session per change point of the probed names, counting from the current session. */
  lemma {:induction false} SessionsCountChanges(cfg: Config, st: State, ticks: seq<Tick>)
    requires WellFormed(cfg, st)
    ensures SwitchCount(Run(cfg, st, ticks).log) == SwitchCount(st.log) + Changes(LastApp(st), Apps(ticks))
    decreases |ticks|
  {
    if ticks != [] {
      var t := ticks[0];
      SwitchCountStep(cfg, st, t);
      NextSession(cfg, st, t);
      SessionsCountChanges(cfg, Next(cfg, st, t), ticks[1..]);
      assert Apps(ticks)[1..] == Apps(ticks[1..]);
    }
  }

  /** From start-up, the number of sessions is the number of change points, the first probe included. */
  lemma SessionsFromStartUp(cfg: Config, fs: FileSystem, ticks: seq<Tick>)
    ensures SwitchCount(Run(cfg, State(None, fs, []), ticks).log) == Changes(None, Apps(ticks))
  {
    SessionsCountChanges(cfg, State(None, fs, []), ticks);
  }

  /** One iteration only appends to files other than its chunk. */
  lemma NextOnlyAppends(cfg: Config, st: State, t: Tick)
    requires WellFormed(cfg, st)
    ensures forall p :: p in st.fs && p != ChunkPath(cfg, t) ==>
      p in Next(cfg, st, t).fs && st.fs[p] <= Next(cfg, st, t).fs[p]
  {
    var path := SessionAfter(cfg, st, t).path;
    var r := Next(cfg, st, t);
    CaptionAfterStep(cfg, st, t);
    OtherFilesAfterStep(cfg, st, t);
    forall p | p in st.fs && p != ChunkPath(cfg, t) ensures p in r.fs && st.fs[p] <= r.fs[p] {
      assert Contents(st.fs, p) == st.fs[p] && Contents(r.fs, p) == r.fs[p];
    }
  }

  /** Over a run, every file that is not an audio chunk keeps its old contents as a prefix. */
  lemma {:induction false} CaptionFilesOnlyGrow(cfg: Config, st: State, ticks: seq<Tick>, p: Path)
    requires WellFormed(cfg, st)
    requires p in st.fs && !EndsWith(p, ".wav")
    ensures p in Run(cfg, st, ticks).fs && st.fs[p] <= Run(cfg, st, ticks).fs[p]
    decreases |ticks|
  {
    if ticks != [] {
      var next := Next(cfg, st, ticks[0]);
      NextOnlyAppends(cfg, st, ticks[0]);
      NextSession(cfg, st, ticks[0]);
      CaptionFilesOnlyGrow(cfg, next, ticks[1..], p);
    }
  }

  /** A path that is neither present nor a caption file stays absent for the rest of the run. */
  lemma {:induction false} AbsentStaysAbsent(cfg: Config, st: State, ticks: seq<Tick>, p: Path)
    requires WellFormed(cfg, st)
    requires p !in st.fs && !EndsWith(p, ".txt")
    ensures p !in Run(cfg, st, ticks).fs
    decreases |ticks|
  {
    if ticks != [] {
      var t := ticks[0];
      OtherFilesAfterStep(cfg, st, t);
      NextSession(cfg, st, t);
      var s := SessionAfter(cfg, st, t);
      assert EndsWith(s.path, ".txt");
      AbsentStaysAbsent(cfg, Next(cfg, st, t), ticks[1..], p);
    }
  }

  /** No audio chunk of any iteration is left behind at the end of a run. */
  lemma {:induction false} NoChunkSurvives(cfg: Config, st: State, ticks: seq<Tick>, i: nat)
    requires WellFormed(cfg, st)
    requires i < |ticks|
    ensures ChunkPath(cfg, ticks[i]) !in Run(cfg, st, ticks).fs
    decreases |ticks|
  {
    var t := ticks[0];
    var next := Next(cfg, st, t);
    NextSession(cfg, st, t);
    if i == 0 {
      var chunk := ChunkPath(cfg, t);
      OtherFilesAfterStep(cfg, st, t);
      TxtIsNotWav(chunk);
      AbsentStaysAbsent(cfg, next, ticks[1..], chunk);
    } else {
      NoChunkSurvives(cfg, next, ticks[1..], i - 1);
    }
  }

  /** A run only adds lines after the log it starts from. */
  lemma {:induction false} RunExtendsLog(cfg: Config, st: State, ticks: seq<Tick>)
    requires WellFormed(cfg, st)
    ensures |st.log| <= |Run(cfg, st, ticks).log|
    ensures Run(cfg, st, ticks).log[..|st.log|] == st.log
    decreases |ticks|
  {
    if ticks != [] {
      var t := ticks[0];
      var next := Next(cfg, st, t);
      StepLog(cfg, st, t);
      SplitLog(next.log, st.log, SwitchLines(st, t), CleanupLines(cfg, st, t));
      NextSession(cfg, st, t);
      RunExtendsLog(cfg, next, ticks[1..]);
      var log := Run(cfg, next, ticks[1..]).log;
      assert log[..|next.log|][..|st.log|] == log[..|st.log|];
    }
  }

  /**
   * `main_loop` from start-up until the user stops it: the log opens with
   * the start line and closes with the stop line, it records one session
   * per change point of the probed names (the first probe included),
   * `last_app` is the last probed name, and no audio chunk is left.
   */
  lemma MainLoopFromStartUp(cfg: Config, fs: FileSystem, ticks: seq<Tick>)
    ensures var r := MainLoop(cfg, State(None, fs, []), ticks);
      && 2 <= |r.log| && r.log[0] == Started && r.log[|r.log| - 1] == Stopped
      && SwitchCount(r.log) == Changes(None, Apps(ticks))
      && (ticks != [] ==> LastApp(r) == Some(ticks[|ticks| - 1].app))
      && (forall i :: 0 <= i < |ticks| ==> ChunkPath(cfg, ticks[i]) !in r.fs)
  {
    var s0 := State(None, fs, [Started]);
    var run := Run(cfg, s0, ticks);
    assert State(None, fs, []).(log := [] + [Started]) == s0;
    assert MainLoop(cfg, State(None, fs, []), ticks) == run.(log := run.log + [Stopped]);
    RunExtendsLog(cfg, s0, ticks);
    assert run.log[0] == run.log[..1][0];
    SessionsCountChanges(cfg, s0, ticks);
    assert SwitchCount([Started]) == 0 by {
      assert [Started][..0] == [];
    }
    assert (run.log + [Stopped])[..|run.log|] == run.log;
    if ticks != [] {
      RunLastApp(cfg, s0, ticks);
    }
    forall i | 0 <= i < |ticks| ensures ChunkPath(cfg, ticks[i]) !in run.fs {
      NoChunkSurvives(cfg, s0, ticks, i);
    }
  }
}
