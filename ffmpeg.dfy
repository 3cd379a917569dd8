/**
 * The video composer: one still-image segment per section (with the
 * section's narration as its sound track when there is one), the segments
 * joined through a concat list, and the result returned as a data URL. The
 * ffmpeg processes, the temporary directory and the files they produce are
 * given as functions.
 */
module Ffmpeg {
  import opened Wrappers
  import opened Text
  import opened Schema
  import opened Codec
  import opened Arith

  const Width := 1920
  const Height := 1080
  const Fps := 30

  /**
   * What lies outside the model: whether `ffmpeg -version` succeeds, the
   * temporary directory's path, the exit status (true for 0) of a segment
   * command given the command that drew its still image, the exit status of
   * the concat command given the text of the list file it reads, the bytes
   * of a file ffmpeg wrote, the codecs, and `str(float)`.
   */
  datatype FfmpegEnv = FfmpegEnv(
    installed: bool,
    tmpDir: string,
    runSegment: (seq<string>, seq<string>) -> bool,
    runConcat: (string, seq<string>) -> bool,
    readFile: string -> seq<byte>,
    codecs: Codecs,
    formatFloat: real -> string)

  /** The exceptions `compose_video` raises. */
  datatype FfmpegError =
    | NotInstalled              // RuntimeError("FFmpeg is not installed")
    | AudioWithoutComma(index: nat)  // IndexError from `split(",")[1]`
    | AudioNotBase64(index: nat)     // binascii.Error from `b64decode`
    | SegmentFailed(index: nat)      // RuntimeError from a segment command
    | NoSegments                // ValueError("No segments to concat")
    | ConcatFailed              // RuntimeError from the concat command

  /** `section.get("duration") or 5.0`: a missing or zero duration counts as five seconds. */
  function SegmentDuration(d: Option<real>): (r: real)
    ensures d.Some? && d.value != 0.0 ==> r == d.value
    ensures d.None? || d.value == 0.0 ==> r == 5.0
  {
    if d.Some? && d.value != 0.0 then d.value else 5.0
  }

  /** `estimate_file_size`: five MiB a minute, truncated to whole bytes. */
  function EstimateFileSize(totalDuration: real): (size: int)
    ensures totalDuration >= 0.0 ==>
      0 <= size && size as real <= totalDuration / 60.0 * 5.0 * 1024.0 * 1024.0 < size as real + 1.0
  {
    Trunc(totalDuration / 60.0 * 5.0 * 1024.0 * 1024.0)
  }

  /** One minute is 5 MiB, and sizes grow with the duration. */
  lemma EstimateFileSizeFacts(a: real, b: real)
    requires 0.0 <= a <= b
    ensures EstimateFileSize(60.0) == 5 * 1024 * 1024
    ensures 0 <= EstimateFileSize(a) <= EstimateFileSize(b)
  {
    TruncMonotone(a / 60.0 * 5.0 * 1024.0 * 1024.0, b / 60.0 * 5.0 * 1024.0 * 1024.0);
  }

  /** The background colour of a section's placeholder image. */
  function PlaceholderColor(sectionType: string): (c: string)
    ensures sectionType == "slide" ==> c == "#16213e"
    ensures sectionType == "code" ==> c == "#0d1117"
    ensures sectionType != "slide" && sectionType != "code" ==> c == "#1a1a2e"
  {
    if sectionType == "slide" then "#16213e"
    else if sectionType == "code" then "#0d1117"
    else "#1a1a2e"
  }

  /**
   * The command drawing a one-frame placeholder of the full output size;
   * its exit status is not looked at.
   */
  function PlaceholderCommand(out: string, sectionType: string): seq<string> {
    ["ffmpeg", "-y", "-f", "lavfi",
     "-i", "color=c=" + PlaceholderColor(sectionType) + ":s=1920x1080:d=1",
     "-frames:v", "1", out]
  }

  function SlideFile(dir: string, idx: nat): string { dir + "/slide_" + Pad3(idx) + ".png" }
  function AudioFile(dir: string, idx: nat): string { dir + "/audio_" + Pad3(idx) + ".mp3" }
  function SegmentFile(dir: string, idx: nat): string { dir + "/segment_" + Pad3(idx) + ".mp4" }
  function OutputFile(dir: string): string { dir + "/output.mp4" }
  function ListFile(dir: string): string { dir + "/concat_list.txt" }

  /** The three per-section file names differ from section to section (for fewer than 1000 sections). */
  lemma FileNamesDistinct(dir: string, i: nat, j: nat)
    requires i != j && i < 1000 && j < 1000
    ensures SlideFile(dir, i) != SlideFile(dir, j)
    ensures AudioFile(dir, i) != AudioFile(dir, j)
    ensures SegmentFile(dir, i) != SegmentFile(dir, j)
  {
    Pad3Injective(i, j);
    var k := |dir| + 9;
    assert SegmentFile(dir, i)[k..k + 3] == Pad3(i);
    assert SegmentFile(dir, j)[k..k + 3] == Pad3(j);
    assert SlideFile(dir, i)[|dir| + 7..|dir| + 10] == Pad3(i);
    assert SlideFile(dir, j)[|dir| + 7..|dir| + 10] == Pad3(j);
    assert AudioFile(dir, i)[|dir| + 7..|dir| + 10] == Pad3(i);
    assert AudioFile(dir, j)[|dir| + 7..|dir| + 10] == Pad3(j);
  }

  /**
   * `_create_segment`: with an audio file, the still image is looped for as
   * long as the audio lasts; without one, for the section's duration at 30
   * frames a second.
   */
  function SegmentCommand(env: FfmpegEnv, image: string, audio: Option<string>, out: string, duration: real): (cmd: seq<string>)
    ensures |cmd| >= 7 && cmd[..6] == ["ffmpeg", "-y", "-loop", "1", "-i", image] && cmd[|cmd| - 1] == out
    ensures audio.Some? ==> |cmd| == 20 && cmd[6..8] == ["-i", audio.value] && cmd[18] == "-shortest"
    ensures audio.None? ==> |cmd| == 15 && cmd[8..10] == ["-t", env.formatFloat(duration)] && cmd[12..14] == ["-r", "30"]
    // Only the paths (and the formatted duration) can spell the other branch's flags.
    ensures audio.Some? ==> forall k :: 0 <= k < |cmd| && (cmd[k] == "-t" || cmd[k] == "-r") ==> k == 5 || k == 7 || k == 19
    ensures audio.None? ==> forall k :: 0 <= k < |cmd| && (cmd[k] == "-shortest" || cmd[k] == "-c:a") ==> k == 5 || k == 9 || k == 14
  {
    if audio.Some? then
      ["ffmpeg", "-y", "-loop", "1", "-i", image, "-i", audio.value,
       "-c:v", "libx264", "-tune", "stillimage", "-c:a", "aac", "-b:a", "192k",
       "-pix_fmt", "yuv420p", "-shortest", out]
    else
      ["ffmpeg", "-y", "-loop", "1", "-i", image, "-c:v", "libx264",
       "-t", env.formatFloat(duration), "-pix_fmt", "yuv420p", "-r", "30", out]
  }

  /**
   * The audio file a section contributes: none unless its audio path is a
   * `data:audio` URL; then the base64 after the first comma, decoded.
   */
  function SectionAudio(env: FfmpegEnv, idx: nat, audioPath: Option<string>): (r: Result<Option<seq<byte>>, FfmpegError>)
    ensures audioPath.None? || !StartsWith(audioPath.value, "data:audio") ==> r == Ok(None)
    ensures r.Err? ==> r.error == AudioWithoutComma(idx) || r.error == AudioNotBase64(idx)
  {
    if audioPath.None? || !StartsWith(audioPath.value, "data:audio") then Ok(None)
    else
      var parts := Split(audioPath.value, ",");
      if |parts| < 2 then Err(AudioWithoutComma(idx))
      else match env.codecs.b64decode(parts[1])
        case None => Err(AudioNotBase64(idx))
        case Some(bytes) => Ok(Some(bytes))
  }

  /** The segment of section `idx`: its file name, once the segment command for it has succeeded. */
  function RunSegment(env: FfmpegEnv, idx: nat, s: Section): Result<string, FfmpegError> {
    match SectionAudio(env, idx, s.narrationAudioPath)
    case Err(e) => Err(e)
    case Ok(audio) =>
      var audioFile := if audio.Some? then Some(AudioFile(env.tmpDir, idx)) else None;
      var out := SegmentFile(env.tmpDir, idx);
      var image := SlideFile(env.tmpDir, idx);
      if env.runSegment(PlaceholderCommand(image, TypeName(s.kind)),
                        SegmentCommand(env, image, audioFile, out, SegmentDuration(s.duration)))
      then Ok(out)
      else Err(SegmentFailed(idx))
  }

  /** The segments of all sections in order, or the error of the first section that fails. */
  function Segments(env: FfmpegEnv, secs: seq<Section>): Result<seq<string>, FfmpegError>
    decreases |secs|
  {
    if secs == [] then Ok([])
    else
      match Segments(env, secs[..|secs| - 1])
      case Err(e) => Err(e)
      case Ok(done) =>
        match RunSegment(env, |secs| - 1, secs[|secs| - 1])
        case Err(e) => Err(e)
        case Ok(seg) => Ok(done + [seg])
  }

  /** Once a prefix of the sections fails, the whole run fails with the same error. */
  lemma {:induction false} SegmentsErrorPersists(env: FfmpegEnv, secs: seq<Section>, k: nat)
    requires k <= |secs| && Segments(env, secs[..k]).Err?
    ensures Segments(env, secs) == Segments(env, secs[..k])
    decreases |secs| - k
  {
    if k < |secs| {
      assert secs[..k + 1][..k] == secs[..k];
      SegmentsErrorPersists(env, secs, k + 1);
    } else {
      assert secs[..k] == secs;
    }
  }

  /** A successful run names one segment per section, `segment_000.mp4` onward, in section order. */
  lemma {:induction false} SegmentsNamed(env: FfmpegEnv, secs: seq<Section>)
    requires Segments(env, secs).Ok?
    ensures var segs := Segments(env, secs).value;
      |segs| == |secs| && forall i :: 0 <= i < |segs| ==> segs[i] == SegmentFile(env.tmpDir, i)
    decreases |secs|
  {
    if secs != [] {
      var n := |secs| - 1;
      assert Segments(env, secs[..n]).Ok?;
      SegmentsNamed(env, secs[..n]);
      RunSegmentNamed(env, n, secs[n]);
      assert Segments(env, secs).value == Segments(env, secs[..n]).value + [RunSegment(env, n, secs[n]).value];
    }
  }

  /** A section that succeeds gives its numbered segment file. */
  lemma RunSegmentNamed(env: FfmpegEnv, idx: nat, s: Section)
    ensures RunSegment(env, idx, s).Ok? ==> RunSegment(env, idx, s).value == SegmentFile(env.tmpDir, idx)
  {
  }

  /** A section fails only for its audio or its segment command; the first failing section decides the error. */
  lemma {:induction false} SegmentsFirstFailure(env: FfmpegEnv, secs: seq<Section>, k: nat)
    requires k < |secs| && Segments(env, secs[..k]).Ok? && RunSegment(env, k, secs[k]).Err?
    ensures Segments(env, secs) == Err(RunSegment(env, k, secs[k]).error)
  {
    assert secs[..k + 1][..k] == secs[..k];
    assert secs[..k + 1][k] == secs[k];
    SegmentsErrorPersists(env, secs, k + 1);
  }

  /** One `file '<path>'` line of the concat list. */
  function ListLine(seg: string): string {
    "file '" + seg + "'"
  }

  /** The text of the concat list: one line per segment, each ended by a newline. */
  function ConcatList(segs: seq<string>): string {
    if segs == [] then "" else ListLine(segs[0]) + "\n" + ConcatList(segs[1..])
  }

  /** Adding a segment adds its line at the end. */
  lemma {:induction false} ConcatListAppend(segs: seq<string>, seg: string)
    ensures ConcatList(segs + [seg]) == ConcatList(segs) + ListLine(seg) + "\n"
  {
    if segs != [] {
      assert (segs + [seg])[1..] == segs[1..] + [seg];
      ConcatListAppend(segs[1..], seg);
    }
  }

  /** Writing the list file, one segment at a time. */
  method WriteConcatList(segs: seq<string>) returns (text: string)
    ensures text == ConcatList(segs)
  {
    text := "";
    for i := 0 to |segs|
      invariant text == ConcatList(segs[..i])
    {
      ConcatListAppend(segs[..i], segs[i]);
      assert segs[..i + 1] == segs[..i] + [segs[i]];
      text := text + ListLine(segs[i]) + "\n";
    }
    assert segs[..|segs|] == segs;
  }

  /** Read back line by line, the concat list holds exactly the segments, in order. */
  lemma {:induction false} ConcatListLines(segs: seq<string>)
    requires forall i, k :: 0 <= i < |segs| && 0 <= k < |segs[i]| ==> segs[i][k] != '\n'
    ensures Split(ConcatList(segs), "\n") == seq(|segs|, i requires 0 <= i < |segs| => ListLine(segs[i])) + [""]
  {
    if segs == [] {
      assert Find("", "\n") == None;
    } else {
      var line := ListLine(segs[0]);
      forall k | 0 <= k < |line| ensures line[k] != '\n' {
        if 6 <= k < 6 + |segs[0]| {
          assert line[k] == segs[0][k - 6];
        }
      }
      SplitAtChar(line, '\n', ConcatList(segs[1..]));
      assert ConcatList(segs) == line + ['\n'] + ConcatList(segs[1..]);
      ConcatListLines(segs[1..]);
    }
  }

  /** The command joining the segments the list file names into `output.mp4`. */
  function ConcatCommand(dir: string): seq<string> {
    ["ffmpeg", "-y", "-f", "concat", "-safe", "0", "-i", ListFile(dir), "-c", "copy", OutputFile(dir)]
  }

  /**
   * `_concat_segments` followed by reading `output.mp4`: the bytes of the
   * joined video. Two or more segments are joined by ffmpeg reading the
   * concat list; the join fails exactly when that command does.
   */
  function Concatenated(env: FfmpegEnv, segs: seq<string>): (r: Result<seq<byte>, FfmpegError>)
    ensures segs == [] ==> r == Err(NoSegments)
    ensures |segs| == 1 ==> r == Ok(env.readFile(segs[0]))
    ensures |segs| >= 2 ==> (r.Ok? <==> env.runConcat(ConcatList(segs), ConcatCommand(env.tmpDir)))
    ensures |segs| >= 2 ==> (r.Ok? ==> r.value == env.readFile(OutputFile(env.tmpDir))) && (r.Err? ==> r.error == ConcatFailed)
  {
    if segs == [] then Err(NoSegments)
    else if |segs| == 1 then Ok(env.readFile(segs[0]))
    else
      var text := ConcatList(segs);
      if env.runConcat(text, ConcatCommand(env.tmpDir)) then Ok(env.readFile(OutputFile(env.tmpDir))) else Err(ConcatFailed)
  }

  /** What `compose_video` returns or raises, for the sections in order. */
  function Compose(env: FfmpegEnv, sections: seq<Section>): Result<string, FfmpegError> {
    if !env.installed then Err(NotInstalled)
    else match Segments(env, sections)
      case Err(e) => Err(e)
      case Ok(segs) =>
        match Concatenated(env, segs)
        case Err(e) => Err(e)
        case Ok(video) => Ok(DataUrl("video/mp4", env.codecs.b64encode(video)))
  }

  /** Composing fails without ffmpeg, and with ffmpeg fails for no sections. */
  lemma ComposeFailures(env: FfmpegEnv, sections: seq<Section>)
    ensures !env.installed ==> Compose(env, sections) == Err(NotInstalled)
    ensures env.installed && sections == [] ==> Compose(env, sections) == Err(NoSegments)
  {
  }

  /** A composed video is an `mp4` data URL. */
  lemma ComposeIsVideoUrl(env: FfmpegEnv, sections: seq<Section>)
    requires Compose(env, sections).Ok?
    ensures StartsWith(Compose(env, sections).value, "data:video/mp4;base64,")
  {
    var video := Concatenated(env, Segments(env, sections).value).value;
    assert Compose(env, sections) == Ok(DataUrl("video/mp4", env.codecs.b64encode(video)));
    VideoUrlHead(env.codecs.b64encode(video));
  }

  lemma VideoUrlHead(payload: string)
    ensures StartsWith(DataUrl("video/mp4", payload), "data:video/mp4;base64,")
  {
    StartsWithJoin("data:video/mp4;base64,", payload);
  }

  /** With a single section, the video is that section's segment, copied. */
  lemma ComposeSingle(env: FfmpegEnv, sections: seq<Section>)
    requires env.installed && |sections| == 1 && Segments(env, sections).Ok?
    ensures Compose(env, sections) ==
      Ok(DataUrl("video/mp4", env.codecs.b64encode(env.readFile(SegmentFile(env.tmpDir, 0)))))
  {
    SegmentsNamed(env, sections);
  }

  /** `compose_video`: the per-section loop, then the concatenation. */
  method ComposeVideo(env: FfmpegEnv, sections: seq<Section>) returns (r: Result<string, FfmpegError>)
    ensures r == Compose(env, sections)
  {
    if !env.installed {
      return Err(NotInstalled);
    }
    var segs: seq<string> := [];
    for idx := 0 to |sections|
      invariant Segments(env, sections[..idx]) == Ok(segs)
    {
      var seg := RunSegment(env, idx, sections[idx]);
      if seg.Err? {
        SegmentsFirstFailure(env, sections, idx);
        return Err(seg.error);
      }
      assert sections[..idx + 1][..idx] == sections[..idx];
      segs := segs + [seg.value];
    }
    assert sections[..|sections|] == sections;
    var video := Concatenated(env, segs);
    if video.Err? {
      return Err(video.error);
    }
    r := Ok(DataUrl("video/mp4", env.codecs.b64encode(video.value)));
  }
}
