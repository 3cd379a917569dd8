/**
 * The compose stage: once narration is done, the project's sections are
 * joined into one video (or, without ffmpeg, the stage only records that it
 * ran), and the project becomes `composed`.
 */
module ComposeStage {
  import opened Wrappers
  import opened Text
  import opened Schema
  import opened Store
  import opened Codec
  import Ffmpeg
  import NarrationStage

  datatype ComposeError =
    | ProjectNotFound
    | NarrationRequired
    | NoSections
    | VideoFailed(cause: Ffmpeg.FfmpegError)

  /** The message of the reply when ffmpeg is missing. */
  const MockMessage := "FFmpegがインストールされていないため、動画は生成されませんでした"

  /** "completed" with the video, or "mock" with the message. */
  datatype ComposeStatus = Completed(videoUrl: string) | Mock(message: string)

  /** The reply of `compose_video`. */
  datatype ComposeReport = ComposeReport(
    status: ComposeStatus, duration: real, sectionsCount: nat, estimatedSize: int)

  /** The states composing is allowed from: narration done, or composed before. */
  predicate ComposeAllowed(st: ProjectState) {
    st == NarrationDone || st == Composed
  }

  /**
   * `sum(s.get("duration") or 5.0 for s in sections)`, added up left to
   * right; never negative when no stored duration is.
   */
  function TotalDuration(secs: seq<Section>): (total: real)
    ensures (forall k :: 0 <= k < |secs| ==> secs[k].duration.None? || secs[k].duration.value >= 0.0) ==> total >= 0.0
    decreases |secs|
  {
    if secs == [] then 0.0
    else TotalDuration(secs[..|secs| - 1]) + Ffmpeg.SegmentDuration(secs[|secs| - 1].duration)
  }

  /** Rows without a duration count five seconds each. */
  lemma {:induction false} TotalDurationDefault(secs: seq<Section>)
    requires forall k :: 0 <= k < |secs| ==> secs[k].duration.None?
    ensures TotalDuration(secs) == 5.0 * |secs| as real
    decreases |secs|
  {
    if secs != [] {
      TotalDurationDefault(secs[..|secs| - 1]);
    }
  }

  /** With no negative stored duration, a row without one makes the total at least 5 seconds. */
  lemma {:induction false} TotalDurationBounds(secs: seq<Section>)
    requires forall k :: 0 <= k < |secs| ==> secs[k].duration.None? || secs[k].duration.value >= 0.0
    ensures (exists k :: 0 <= k < |secs| && secs[k].duration.None?) ==> TotalDuration(secs) >= 5.0
    decreases |secs|
  {
    if secs != [] {
      var init := secs[..|secs| - 1];
      TotalDurationBounds(init);
      if exists k :: 0 <= k < |secs| && secs[k].duration.None? {
        var k :| 0 <= k < |secs| && secs[k].duration.None?;
        if k < |secs| - 1 {
          assert init[k].duration.None?;
        }
      }
    }
  }

  /** Adding a row adds its duration (or five seconds) to the total. */
  lemma TotalDurationAppend(secs: seq<Section>, s: Section)
    ensures TotalDuration(secs + [s]) == TotalDuration(secs) + Ffmpeg.SegmentDuration(s.duration)
  {
    assert (secs + [s])[..|secs|] == secs;
  }

  /** What `get_compose_status` reports. */
  datatype ComposeInfo = ComposeInfo(
    projectId: ProjectId, state: ProjectState, isComposed: bool, canCompose: bool,
    ffmpegAvailable: bool, sectionsCount: nat, totalDuration: real, estimatedSize: int)

  /**
   * `get_compose_status`: an unknown project is refused; otherwise whether
   * the project is composed and whether it may be composed, the number of
   * sections, their total duration and the estimated size of the video.
   */
  function GetComposeStatus(db: Database, env: Ffmpeg.FfmpegEnv, p: ProjectId): (r: Result<ComposeInfo, ComposeError>)
    reads db
    ensures r.Err? <==> p !in db.projects
    ensures r.Err? ==> r.error == ProjectNotFound
    ensures r.Ok? ==> r.value.projectId == p && r.value.state == db.projects[p].state
    ensures r.Ok? ==> (r.value.isComposed <==> db.projects[p].state == Composed)
    ensures r.Ok? ==> (r.value.isComposed ==> r.value.canCompose)
    ensures r.Ok? ==> (r.value.canCompose <==> ComposeAllowed(db.projects[p].state))
    ensures r.Ok? ==> r.value.sectionsCount == |db.SectionsOf(p)|
    ensures r.Ok? ==> r.value.totalDuration == TotalDuration(db.SectionsOf(p))
    ensures r.Ok? ==> r.value.estimatedSize == Ffmpeg.EstimateFileSize(r.value.totalDuration)
    ensures r.Ok? ==> r.value.ffmpegAvailable == env.installed
  {
    if p !in db.projects then Err(ProjectNotFound)
    else
      var st := db.projects[p].state;
      var secs := db.SectionsOf(p);
      var total := TotalDuration(secs);
      Ok(ComposeInfo(p, st, st == Composed, ComposeAllowed(st), env.installed, |secs|,
                     total, Ffmpeg.EstimateFileSize(total)))
  }

  /**
   * `compose_video`: an unknown project, a project whose narration is not
   * done, a project without sections, or a failing composition changes
   * nothing; otherwise the project becomes `composed` (also without ffmpeg,
   * when no video is made) and the reply carries the video, the total
   * duration and the estimated size, which are the ones the status reports.
   */
  method ComposeVideo(db: Database, env: Ffmpeg.FfmpegEnv, p: ProjectId) returns (r: Result<ComposeReport, ComposeError>)
    requires db.Valid()
    modifies db
    ensures db.Valid()
    ensures p !in old(db.projects) ==> r == Err(ProjectNotFound)
    ensures p in old(db.projects) && !ComposeAllowed(old(db.projects[p]).state) ==> r == Err(NarrationRequired)
    ensures p in old(db.projects) && ComposeAllowed(old(db.projects[p]).state) && old(db.SectionsOf(p)) == [] ==>
      r == Err(NoSections)
    ensures p in old(db.projects) && ComposeAllowed(old(db.projects[p]).state) && old(db.SectionsOf(p)) != [] ==>
      var video := Ffmpeg.Compose(env, old(db.SectionsOf(p)));
      && (!env.installed ==> r.Ok? && r.value.status == Mock(MockMessage))
      && (env.installed && video.Err? ==> r == Err(VideoFailed(video.error)))
      && (env.installed && video.Ok? ==> r.Ok? && r.value.status == Completed(video.value))
    ensures r.Err? ==> unchanged(db)
    ensures r.Ok? ==> db.projects == old(db.projects)[p := old(db.projects[p]).(state := Composed)]
    ensures r.Ok? ==> db.sections == old(db.sections) && db.nextSectionId == old(db.nextSectionId)
    ensures r.Ok? ==> var info := old(GetComposeStatus(db, env, p));
      && info.Ok? && info.value.canCompose
      && r.value.sectionsCount == info.value.sectionsCount > 0
      && r.value.duration == info.value.totalDuration
      && r.value.estimatedSize == info.value.estimatedSize
    ensures r.Ok? ==> GetComposeStatus(db, env, p).Ok? && GetComposeStatus(db, env, p).value.isComposed
  {
    if p !in db.projects {
      return Err(ProjectNotFound);
    }
    if !ComposeAllowed(db.projects[p].state) {
      return Err(NarrationRequired);
    }
    var secs := db.SectionsOf(p);
    if secs == [] {
      return Err(NoSections);
    }
    var total := TotalDuration(secs);
    var status: ComposeStatus;
    if env.installed {
      var video := Ffmpeg.ComposeVideo(env, secs);
      if video.Err? {
        return Err(VideoFailed(video.error));
      }
      status := Completed(video.value);
    } else {
      status := Mock(MockMessage);
    }
    db.SetState(p, Composed);
    r := Ok(ComposeReport(status, total, |secs|, Ffmpeg.EstimateFileSize(total)));
  }

  /**
   * The audio the narration stage stores is the audio the composer decodes:
   * an `audio/mpeg` data URL is split at its first comma, and its payload,
   * which a base64 text never contains a comma in, decodes back to the bytes.
   */
  lemma AudioRoundTrip(env: Ffmpeg.FfmpegEnv, idx: nat, bytes: seq<byte>)
    requires env.codecs.b64decode(env.codecs.b64encode(bytes)) == Some(bytes)
    requires forall k :: 0 <= k < |env.codecs.b64encode(bytes)| ==> env.codecs.b64encode(bytes)[k] != ','
    ensures Ffmpeg.SectionAudio(env, idx, Some(NarrationStage.AudioUrl(env.codecs, bytes))) == Ok(Some(bytes))
  {
    var payload := env.codecs.b64encode(bytes);
    var url := NarrationStage.AudioUrl(env.codecs, bytes);
    var head := "data:audio/mpeg;base64";
    assert url == head + [','] + payload;
    assert url[..10] == "data:audio";
    assert StartsWith(url, "data:audio");
    SplitAtChar(head, ',', payload);
    SplitWithout(payload, ',');
    assert Split(url, ",")[1] == payload;
  }
}
