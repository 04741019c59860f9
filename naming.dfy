/**
 * File naming for caption logs and audio chunks: `safe_filename`, the caption
 * file path of `get_caption_file`, and the audio chunk path built inside the
 * capture loop (live_caption/live_caption.py).
 */
module Naming {

  /** `s` ends with `suffix`. */
  predicate EndsWith(s: string, suffix: string) {
    |suffix| <= |s| && s[|s| - |suffix|..] == suffix
  }

  /** A string ending in `a + b` ends in `b`. */
  lemma EndsWithTail(p: string, a: string, b: string)
    requires EndsWith(p, a + b)
    ensures EndsWith(p, b)
  {
    assert p[|p| - |b|..] == (a + b)[|a|..];
  }

  /** Python's `s.replace(from, to)` for a one-character pattern and replacement. */
  function Replace(s: string, from: char, to: char): (r: string)
    ensures |r| == |s|
    ensures forall i :: 0 <= i < |s| ==> r[i] == if s[i] == from then to else s[i]
  {
    if s == [] then [] else [if s[0] == from then to else s[0]] + Replace(s[1..], from, to)
  }

  /** A character that `safe_filename` rewrites. */
  predicate IsUnsafe(c: char) {
    c == ' ' || c == '/'
  }

  /** `safe_filename`: every space and every slash becomes an underscore. */
  function SafeFilename(name: string): (r: string)
    ensures |r| == |name|
    ensures forall i :: 0 <= i < |name| ==> r[i] == if IsUnsafe(name[i]) then '_' else name[i]
    ensures forall i :: 0 <= i < |r| ==> !IsUnsafe(r[i])
  {
    Replace(Replace(name, ' ', '_'), '/', '_')
  }

  /**
   * `path` is the relative `name` placed under `dir`: `dir`, then one `/`
   * unless `dir` is empty or already ends in one, then `name`.
   */
  predicate PlacedUnder(path: string, dir: string, name: string) {
    if dir == [] || dir[|dir| - 1] == '/' then path == dir + name else path == dir + "/" + name
  }

  /** POSIX `os.path.join(dir, name)` for two components. */
  function Join(dir: string, name: string): (r: string)
    ensures EndsWith(r, name)
    ensures name != [] && name[0] == '/' ==> r == name
    ensures (name == [] || name[0] != '/') ==> PlacedUnder(r, dir, name)
    ensures (name == [] || name[0] != '/') ==> |dir| <= |r| && r[..|dir|] == dir
    ensures (name == [] || name[0] != '/') && dir != [] && dir[|dir| - 1] != '/' ==> r[|dir|] == '/'
  {
    if name != [] && name[0] == '/' then name
    else if dir == [] || dir[|dir| - 1] == '/' then dir + name
    else dir + "/" + name
  }

  /** The part of a file name after the sanitised application name: `_{stamp}{extension}`. */
  function StampTail(stamp: string, extension: string): string {
    "_" + stamp + extension
  }

  /** The file name `f"{safe_filename(app)}_{stamp}{extension}"`. */
  function StampedName(app: string, stamp: string, extension: string): string {
    SafeFilename(app) + StampTail(stamp, extension)
  }

  /** The path of a stamped file name inside `dir`. */
  function StampedPath(dir: string, app: string, stamp: string, extension: string): (r: string)
    ensures EndsWith(r, StampedName(app, stamp, extension))
    ensures EndsWith(r, StampTail(stamp, extension))
    ensures EndsWith(r, extension)
    ensures |dir| <= |r| && r[..|dir|] == dir
  {
    var name := StampedName(app, stamp, extension);
    assert name[0] != '/' by {
      if SafeFilename(app) != [] { assert name[0] == SafeFilename(app)[0]; }
    }
    var r := Join(dir, name);
    EndsWithTail(r, SafeFilename(app), StampTail(stamp, extension));
    EndsWithTail(r, "_" + stamp, extension);
    r
  }

  /** `get_caption_file(app, session_start)`: the caption log of one session. */
  function CaptionFile(captionsDir: string, app: string, sessionStart: string): (r: string)
    ensures EndsWith(r, ".txt")
    ensures EndsWith(r, StampedName(app, sessionStart, ".txt"))
    ensures EndsWith(r, StampTail(sessionStart, ".txt"))
    ensures |captionsDir| <= |r| && r[..|captionsDir|] == captionsDir
  {
    StampedPath(captionsDir, app, sessionStart, ".txt")
  }

  /** The audio chunk path `os.path.join(AUDIO_DIR, f"{safe_filename(active_app)}_{timestamp}.wav")`. */
  function AudioChunkFile(audioDir: string, app: string, stamp: string): (r: string)
    ensures EndsWith(r, ".wav")
    ensures EndsWith(r, StampedName(app, stamp, ".wav"))
    ensures EndsWith(r, StampTail(stamp, ".wav"))
    ensures |audioDir| <= |r| && r[..|audioDir|] == audioDir
  {
    StampedPath(audioDir, app, stamp, ".wav")
  }

  /** A stamped file name is relative, so its path is the name placed under the directory. */
  lemma StampedPathPlacement(dir: string, app: string, stamp: string, extension: string)
    ensures PlacedUnder(StampedPath(dir, app, stamp, extension), dir, StampedName(app, stamp, extension))
  {
    var name := StampedName(app, stamp, extension);
    assert name[0] != '/' by {
      if SafeFilename(app) != [] { assert name[0] == SafeFilename(app)[0]; }
    }
  }

  /** `get_caption_file` places `<safe app>_<start>.txt` under the captions directory. */
  lemma CaptionFilePlacement(captionsDir: string, app: string, sessionStart: string)
    ensures PlacedUnder(CaptionFile(captionsDir, app, sessionStart), captionsDir, StampedName(app, sessionStart, ".txt"))
  {
    StampedPathPlacement(captionsDir, app, sessionStart, ".txt");
  }

  /** The chunk path places `<safe app>_<stamp>.wav` under the audio directory. */
  lemma AudioChunkFilePlacement(audioDir: string, app: string, stamp: string)
    ensures PlacedUnder(AudioChunkFile(audioDir, app, stamp), audioDir, StampedName(app, stamp, ".wav"))
  {
    StampedPathPlacement(audioDir, app, stamp, ".wav");
  }

  /** No path is both a caption log and an audio chunk. */
  lemma TxtIsNotWav(p: string)
    ensures !(EndsWith(p, ".txt") && EndsWith(p, ".wav"))
  {
  }

  /** A caption file never coincides with an audio chunk, whatever the directories. */
  lemma CaptionFileIsNotChunk(captionsDir: string, app: string, start: string,
                              audioDir: string, app': string, stamp: string)
    ensures CaptionFile(captionsDir, app, start) != AudioChunkFile(audioDir, app', stamp)
  {
    TxtIsNotWav(CaptionFile(captionsDir, app, start));
  }

  /** Two strings that end in different suffixes of the same length differ. */
  lemma DistinctEndings(p: string, p': string, suffix: string, suffix': string)
    requires EndsWith(p, suffix) && EndsWith(p', suffix')
    requires |suffix| == |suffix'| && suffix != suffix'
    ensures p != p'
  {
  }

  /** `_{stamp}{extension}` determines the stamp among stamps of one width. */
  lemma DistinctTails(stamp: string, stamp': string, extension: string)
    requires |stamp| == |stamp'| && stamp != stamp'
    ensures StampTail(stamp, extension) != StampTail(stamp', extension)
    ensures |StampTail(stamp, extension)| == |StampTail(stamp', extension)|
  {
    assert StampTail(stamp, extension)[1..1 + |stamp|] == stamp;
    assert StampTail(stamp', extension)[1..1 + |stamp|] == stamp';
  }

  /** Caption files of sessions whose stamps differ but have the same width never coincide. */
  lemma CaptionFilesOfDistinctStamps(captionsDir: string, app: string, start: string,
                                     captionsDir': string, app': string, start': string)
    requires |start| == |start'| && start != start'
    ensures CaptionFile(captionsDir, app, start) != CaptionFile(captionsDir', app', start')
  {
    DistinctTails(start, start', ".txt");
    DistinctEndings(CaptionFile(captionsDir, app, start), CaptionFile(captionsDir', app', start'),
                    StampTail(start, ".txt"), StampTail(start', ".txt"));
  }

  /** Applying `safe_filename` twice is the same as applying it once. */
  lemma SafeFilenameIdempotent(name: string)
    ensures SafeFilename(SafeFilename(name)) == SafeFilename(name)
  {
    var once := SafeFilename(name);
    var twice := SafeFilename(once);
    assert forall i :: 0 <= i < |twice| ==> twice[i] == once[i];
  }

  /** `safe_filename` leaves a name unchanged exactly when it holds no space and no slash. */
  lemma SafeFilenameFixedPoints(name: string)
    ensures SafeFilename(name) == name <==> forall i :: 0 <= i < |name| ==> !IsUnsafe(name[i])
  {
    if forall i :: 0 <= i < |name| ==> !IsUnsafe(name[i]) {
      assert forall i :: 0 <= i < |name| ==> SafeFilename(name)[i] == name[i];
    }
  }

  /** `safe_filename` works character by character, so it distributes over concatenation. */
  lemma SafeFilenameConcat(a: string, b: string)
    ensures SafeFilename(a + b) == SafeFilename(a) + SafeFilename(b)
  {
    var l := SafeFilename(a + b);
    var r := SafeFilename(a) + SafeFilename(b);
    assert forall i :: 0 <= i < |a| ==> (a + b)[i] == a[i];
    assert forall i :: |a| <= i < |a + b| ==> (a + b)[i] == b[i - |a|];
    assert forall i :: 0 <= i < |l| ==> l[i] == r[i];
  }

  /** Sanitising a word with a separator after it. */
  lemma SafeFilenameWordThen(word: string, sep: char)
    requires forall i :: 0 <= i < |word| ==> !IsUnsafe(word[i])
    requires IsUnsafe(sep)
    ensures SafeFilename(word + [sep]) == word + "_"
  {
    SafeFilenameFixedPoints(word);
    SafeFilenameConcat(word, [sep]);
  }

  /** Documented example: "Visual Studio Code" becomes "Visual_Studio_Code". */
  lemma SafeFilenameSpacesExample()
    ensures SafeFilename("Visual" + " " + "Studio" + " " + "Code") == "Visual" + "_" + "Studio" + "_" + "Code"
  {
    var a, b := "Visual" + " ", "Studio" + " ";
    SafeFilenameWordThen("Visual", ' ');
    SafeFilenameWordThen("Studio", ' ');
    SafeFilenameFixedPoints("Code");
    SafeFilenameConcat(a, b);
    assert SafeFilename(a + b) == "Visual" + "_" + "Studio" + "_";
    SafeFilenameConcat(a + b, "Code");
  }

  /** Documented example: "A/B App" becomes "A_B_App". */
  lemma SafeFilenameSlashExample()
    ensures SafeFilename("A" + "/" + "B" + " " + "App") == "A" + "_" + "B" + "_" + "App"
  {
    var a, b := "A" + "/", "B" + " ";
    SafeFilenameWordThen("A", '/');
    SafeFilenameWordThen("B", ' ');
    SafeFilenameFixedPoints("App");
    SafeFilenameConcat(a, b);
    assert SafeFilename(a + b) == "A" + "_" + "B" + "_";
    SafeFilenameConcat(a + b, "App");
  }

  /** Names are not collision-free: "A B" and "A_B" share every caption file. */
  lemma CaptionFilesCollide(captionsDir: string, start: string)
    ensures "A B" != "A_B"
    ensures CaptionFile(captionsDir, "A B", start) == CaptionFile(captionsDir, "A_B", start)
  {
    assert "A B"[1] != "A_B"[1];
    var x := SafeFilename("A B");
    var y := SafeFilename("A_B");
    assert forall i :: 0 <= i < 3 ==> x[i] == y[i];
    assert x == y;
  }
}
