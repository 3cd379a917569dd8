/**
 * The narration stage: every section with narration text gets speech,
 * stored as an `audio/mpeg` data URL, or, when no audio comes back, an
 * estimated duration; a single section can be re-narrated, optionally with
 * new text.
 */
module NarrationStage {
  import opened Wrappers
  import opened Text
  import opened Schema
  import opened Store
  import opened Codec
  import ElevenLabs

  datatype NarrationError = ProjectNotFound | ScriptNotGenerated | SectionNotFound

  /** "skipped", "generated", "mock", and the "error" a re-narration without text reports. */
  datatype NarrationStatus = Skipped | Generated | Mock | NoText

  /** One entry of the list `generate_narrations` returns, or the reply of a re-narration. */
  datatype NarrationResult = NarrationResult(
    sectionId: SectionId, sectionIndex: nat, status: NarrationStatus,
    duration: Option<real>, audioUrl: Option<string>)

  /** `section.get("narration") or ""`. */
  function TextOf(s: Section): (t: string)
    ensures s.narration.Some? ==> t == s.narration.value
    ensures s.narration.None? ==> t == ""
  {
    if s.narration.Some? then s.narration.value else ""
  }

  /** The speech for a text when the service returns some bytes; empty audio counts as none. */
  function Audio(env: ElevenLabs.SpeechEnv, text: string): (a: Option<seq<byte>>)
    ensures a.Some? ==> |a.value| > 0 && ElevenLabs.GenerateSpeech(env, text, None) == a
    ensures env.apiKey == "" ==> a.None?
  {
    var a := ElevenLabs.GenerateSpeech(env, text, None);
    if a.Some? && |a.value| > 0 then a else None
  }

  /** `f"data:audio/mpeg;base64,{audio_base64}"`. */
  function AudioUrl(codecs: Codecs, bytes: seq<byte>): string {
    DataUrl("audio/mpeg", codecs.b64encode(bytes))
  }

  /** The row after narration: untouched without text; else its audio URL, or else its estimated duration. */
  function Narrated(env: ElevenLabs.SpeechEnv, codecs: Codecs, s: Section): Section {
    var text := TextOf(s);
    if text == "" then s
    else match Audio(env, text)
      case Some(bytes) => ApplyPatch(s, SetAudio(AudioUrl(codecs, bytes)))
      case None => ApplyPatch(s, SetDuration(ElevenLabs.EstimateDuration(text)))
  }

  /** The reply for a row with text: "generated" with its audio URL, or "mock"; both with the estimate. */
  function Spoken(env: ElevenLabs.SpeechEnv, codecs: Codecs, s: Section): NarrationResult {
    var text := TextOf(s);
    match Audio(env, text)
    case Some(bytes) =>
      NarrationResult(s.id, s.sectionIndex, Generated, Some(ElevenLabs.EstimateDuration(text)), Some(AudioUrl(codecs, bytes)))
    case None => NarrationResult(s.id, s.sectionIndex, Mock, Some(ElevenLabs.EstimateDuration(text)), None)
  }

  /** What the stage reports for a row: skipped without text; the batch reply carries no audio URL. */
  function ResultFor(env: ElevenLabs.SpeechEnv, codecs: Codecs, s: Section): NarrationResult {
    if TextOf(s) == "" then NarrationResult(s.id, s.sectionIndex, Skipped, None, None)
    else Spoken(env, codecs, s).(audioUrl := None)
  }

  /**
   * A row without text is left alone and reported skipped; with audio only
   * its audio path changes, to an `audio/mpeg` data URL; otherwise only its
   * duration changes, to the estimate (at least a second). Narrating again
   * changes nothing.
   */
  lemma NarratedFacts(env: ElevenLabs.SpeechEnv, codecs: Codecs, s: Section)
    ensures TextOf(s) == "" ==> Narrated(env, codecs, s) == s && ResultFor(env, codecs, s).status == Skipped
    ensures TextOf(s) != "" && Audio(env, TextOf(s)).Some? ==>
      && Narrated(env, codecs, s) == s.(narrationAudioPath := Some(AudioUrl(codecs, Audio(env, TextOf(s)).value)))
      && StartsWith(AudioUrl(codecs, Audio(env, TextOf(s)).value), "data:audio/mpeg;base64,")
      && ResultFor(env, codecs, s).status == Generated
    ensures TextOf(s) != "" && Audio(env, TextOf(s)).None? ==>
      && Narrated(env, codecs, s) == s.(duration := Some(ElevenLabs.EstimateDuration(TextOf(s))))
      && Narrated(env, codecs, s).duration.value >= 1.0
      && ResultFor(env, codecs, s).status == Mock
    ensures Narrated(env, codecs, Narrated(env, codecs, s)) == Narrated(env, codecs, s)
  {
    var text := TextOf(s);
    if text != "" && Audio(env, text).Some? {
      var url := AudioUrl(codecs, Audio(env, text).value);
      assert url[..23] == "data:audio/mpeg;base64,";
    }
  }

  /** The rows with the first `k` of them narrated. */
  function WithNarrations(env: ElevenLabs.SpeechEnv, codecs: Codecs, secs: seq<Section>, k: nat): (r: seq<Section>)
    ensures |r| == |secs|
  {
    seq(|secs|, i requires 0 <= i < |secs| => if i < k then Narrated(env, codecs, secs[i]) else secs[i])
  }

  function Narrations(env: ElevenLabs.SpeechEnv, codecs: Codecs, secs: seq<Section>): seq<Section> {
    WithNarrations(env, codecs, secs, |secs|)
  }

  /** One result per row, in row order. */
  function Results(env: ElevenLabs.SpeechEnv, codecs: Codecs, secs: seq<Section>): (r: seq<NarrationResult>)
    ensures |r| == |secs|
    ensures forall k :: 0 <= k < |r| ==> r[k] == ResultFor(env, codecs, secs[k])
  {
    seq(|secs|, k requires 0 <= k < |secs| => ResultFor(env, codecs, secs[k]))
  }

  /** Narrates row `k` of `p`, which has text; returns the reply with its audio URL. */
  method NarrateRow(db: Database, env: ElevenLabs.SpeechEnv, codecs: Codecs, p: ProjectId, k: nat)
    returns (res: NarrationResult)
    requires db.Valid() && k < |db.SectionsOf(p)| && TextOf(db.sections[p][k]) != ""
    modifies db
    ensures db.Valid()
    ensures db.sections == old(db.sections)[p := old(db.sections[p])[k := Narrated(env, codecs, old(db.sections[p][k]))]]
    ensures res == Spoken(env, codecs, old(db.sections[p][k]))
    ensures db.projects == old(db.projects) && db.nextSectionId == old(db.nextSectionId)
  {
    var s := db.sections[p][k];
    var text := TextOf(s);
    var audio := Audio(env, text);
    if audio.Some? {
      var url := AudioUrl(codecs, audio.value);
      db.PatchSection(p, k, SetAudio(url));
      res := NarrationResult(s.id, s.sectionIndex, Generated, Some(ElevenLabs.EstimateDuration(text)), Some(url));
    } else {
      var estimated := ElevenLabs.EstimateDuration(text);
      db.PatchSection(p, k, SetDuration(estimated));
      res := NarrationResult(s.id, s.sectionIndex, Mock, Some(estimated), None);
    }
  }

  /** One turn of the stage's loop: a row without text is skipped, any other is narrated. */
  method NarrateStep(db: Database, env: ElevenLabs.SpeechEnv, codecs: Codecs, p: ProjectId, k: nat)
    returns (res: NarrationResult)
    requires db.Valid() && k < |db.SectionsOf(p)|
    modifies db
    ensures db.Valid()
    ensures db.sections == old(db.sections)[p := old(db.sections[p])[k := Narrated(env, codecs, old(db.sections[p][k]))]]
    ensures res == ResultFor(env, codecs, old(db.sections[p][k]))
    ensures db.projects == old(db.projects) && db.nextSectionId == old(db.nextSectionId)
  {
    var s := db.sections[p][k];
    if TextOf(s) == "" {
      assert db.sections[p][k := s] == db.sections[p];
      return NarrationResult(s.id, s.sectionIndex, Skipped, None, None);
    }
    var spoken := NarrateRow(db, env, codecs, p, k);
    // The batch reply leaves the audio URL out.
    res := spoken.(audioUrl := None);
  }

  lemma WithNarrationsStep(env: ElevenLabs.SpeechEnv, codecs: Codecs, secs: seq<Section>, k: nat)
    requires k < |secs|
    ensures WithNarrations(env, codecs, secs, k)[k := Narrated(env, codecs, secs[k])] == WithNarrations(env, codecs, secs, k + 1)
  {
  }

  /**
   * `generate_narrations`: refused for an unknown project and before a
   * script exists, changing nothing; otherwise every section is narrated in
   * section order and the state becomes `narration_done`, even when every
   * section was skipped.
   */
  method GenerateNarrations(db: Database, env: ElevenLabs.SpeechEnv, codecs: Codecs, p: ProjectId)
    returns (r: Result<seq<NarrationResult>, NarrationError>)
    requires db.Valid()
    modifies db
    ensures db.Valid()
    ensures p !in old(db.projects) ==> r == Err(ProjectNotFound)
    ensures p in old(db.projects) && old(db.projects[p]).state == Init ==> r == Err(ScriptNotGenerated)
    ensures r.Ok? <==> p in old(db.projects) && old(db.projects[p]).state != Init
    ensures r.Err? ==> unchanged(db)
    ensures r.Ok? ==> r.value == Results(env, codecs, old(db.SectionsOf(p)))
    ensures r.Ok? ==> forall k :: 0 <= k < |r.value| ==> r.value[k].sectionIndex == k
    ensures r.Ok? ==> db.projects == old(db.projects)[p := old(db.projects[p]).(state := NarrationDone)]
    ensures r.Ok? && p in old(db.sections) ==> db.sections == old(db.sections)[p := Narrations(env, codecs, old(db.sections[p]))]
    ensures r.Ok? && p !in old(db.sections) ==> db.sections == old(db.sections)
  {
    if p !in db.projects {
      return Err(ProjectNotFound);
    }
    if db.projects[p].state == Init {
      return Err(ScriptNotGenerated);
    }
    var secs := db.SectionsOf(p);
    var results: seq<NarrationResult> := [];
    if p in db.sections {
      assert WithNarrations(env, codecs, secs, 0) == secs;
      assert db.sections == db.sections[p := WithNarrations(env, codecs, secs, 0)];
    }
    for k := 0 to |secs|
      invariant db.Valid()
      invariant db.projects == old(db.projects) && db.nextSectionId == old(db.nextSectionId)
      invariant p in old(db.sections) ==> db.sections == old(db.sections)[p := WithNarrations(env, codecs, secs, k)]
      invariant p !in old(db.sections) ==> db.sections == old(db.sections)
      invariant results == Results(env, codecs, secs)[..k]
    {
      var res := NarrateStep(db, env, codecs, p, k);
      WithNarrationsStep(env, codecs, secs, k);
      ListWrittenTwice(old(db.sections), p, WithNarrations(env, codecs, secs, k), WithNarrations(env, codecs, secs, k + 1));
      results := results + [res];
      assert results == Results(env, codecs, secs)[..k + 1];
    }
    db.SetState(p, NarrationDone);
    r := Ok(results);
  }

  /** The narration in force when re-narrating: non-empty new text replaces the stored one. */
  function WithText(s: Section, newText: Option<string>): Section {
    if newText.Some? && newText.value != "" then s.(narration := newText) else s
  }

  /** The row after a re-narration: the text in force stored, then narrated. */
  function Renarrated(env: ElevenLabs.SpeechEnv, codecs: Codecs, s: Section, newText: Option<string>): Section {
    Narrated(env, codecs, WithText(s, newText))
  }

  /** The reply of a re-narration: the "error" status when no text is in force. */
  function RenarrationResult(env: ElevenLabs.SpeechEnv, codecs: Codecs, s: Section, newText: Option<string>)
    : NarrationResult
  {
    if TextOf(WithText(s, newText)) == "" then NarrationResult(s.id, s.sectionIndex, NoText, None, None)
    else Spoken(env, codecs, WithText(s, newText))
  }

  /**
   * Without text in force the reply is the "error" status and the row is
   * unchanged; non-empty new text is stored on the row; the reply's audio
   * URL, when there is one, is the one stored.
   */
  lemma RenarratedFacts(env: ElevenLabs.SpeechEnv, codecs: Codecs, s: Section, newText: Option<string>)
    ensures (newText.None? || newText.value == "") && TextOf(s) == "" ==>
      Renarrated(env, codecs, s, newText) == s && RenarrationResult(env, codecs, s, newText).status == NoText
    ensures newText.Some? && newText.value != "" ==>
      Renarrated(env, codecs, s, newText).narration == newText
      && RenarrationResult(env, codecs, s, newText).status != NoText
    ensures RenarrationResult(env, codecs, s, newText).audioUrl.Some? ==>
      Renarrated(env, codecs, s, newText).narrationAudioPath == RenarrationResult(env, codecs, s, newText).audioUrl
  {
  }

  /** Stores the text in force and narrates row `k` of `p`; returns the reply. */
  method Renarrate(db: Database, env: ElevenLabs.SpeechEnv, codecs: Codecs, p: ProjectId, k: nat, newText: Option<string>)
    returns (res: NarrationResult)
    requires db.Valid() && k < |db.SectionsOf(p)|
    modifies db
    ensures db.Valid()
    ensures db.sections == old(db.sections)[p := old(db.sections[p])[k := Renarrated(env, codecs, old(db.sections[p][k]), newText)]]
    ensures res == RenarrationResult(env, codecs, old(db.sections[p][k]), newText)
    ensures db.projects == old(db.projects)
  {
    var s := db.sections[p][k];
    ghost var rows := db.sections[p];
    var text := StoreText(db, p, k, newText);
    if text == "" {
      assert Narrated(env, codecs, WithText(s, newText)) == WithText(s, newText);
      return NarrationResult(s.id, s.sectionIndex, NoText, None, None);
    }
    ghost var s1 := WithText(s, newText);
    assert db.sections[p][k] == s1;
    res := NarrateRow(db, env, codecs, p, k);
    RowWrittenTwice(rows, k, s1, Narrated(env, codecs, s1));
    ListWrittenTwice(old(db.sections), p, rows[k := s1], rows[k := Narrated(env, codecs, s1)]);
  }

  /** Stores non-empty new text on row `k` of `p`; returns the text in force. */
  method StoreText(db: Database, p: ProjectId, k: nat, newText: Option<string>) returns (text: string)
    requires db.Valid() && k < |db.SectionsOf(p)|
    modifies db
    ensures db.Valid()
    ensures db.sections == old(db.sections)[p := old(db.sections[p])[k := WithText(old(db.sections[p][k]), newText)]]
    ensures text == TextOf(WithText(old(db.sections[p][k]), newText))
    ensures db.projects == old(db.projects) && db.nextSectionId == old(db.nextSectionId)
  {
    if newText.Some? && newText.value != "" {
      db.PatchSection(p, k, SetNarration(newText.value));
      text := newText.value;
    } else {
      text := TextOf(db.sections[p][k]);
      assert db.sections[p][k := db.sections[p][k]] == db.sections[p];
    }
  }

  /**
   * `regenerate_section_narration`: refused when the section is not one of
   * the project's; otherwise the row is re-narrated. The project state never
   * changes.
   */
  method RegenerateSectionNarration(db: Database, env: ElevenLabs.SpeechEnv, codecs: Codecs, p: ProjectId,
                                    sid: SectionId, newText: Option<string>)
    returns (r: Result<NarrationResult, NarrationError>)
    requires db.Valid()
    modifies db
    ensures db.Valid()
    ensures r.Err? <==> FindSection(old(db.SectionsOf(p)), sid).None?
    ensures r.Err? ==> r == Err(SectionNotFound) && unchanged(db)
    ensures r.Ok? ==>
      var k := FindSection(old(db.SectionsOf(p)), sid).value;
      && db.sections == old(db.sections)[p := old(db.sections[p])[k := Renarrated(env, codecs, old(db.sections[p][k]), newText)]]
      && r.value == RenarrationResult(env, codecs, old(db.sections[p][k]), newText)
    ensures db.projects == old(db.projects)
  {
    var found := FindSection(db.SectionsOf(p), sid);
    if found.None? {
      return Err(SectionNotFound);
    }
    var res := Renarrate(db, env, codecs, p, found.value, newText);
    r := Ok(res);
  }

  /** What `get_section_narration` reports for a section. */
  datatype SectionNarration = SectionNarration(
    sectionId: SectionId, sectionIndex: nat, kind: string,
    narrationText: Option<string>, audioUrl: Option<string>, duration: Option<real>)

  /** `get_section_narration`: the stored row's text, audio and duration; changes nothing. */
  function GetSectionNarration(db: Database, p: ProjectId, sid: SectionId): (r: Result<SectionNarration, NarrationError>)
    reads db
    ensures r.Err? <==> FindSection(db.SectionsOf(p), sid).None?
    ensures r.Err? ==> r.error == SectionNotFound
    ensures r.Ok? ==> exists k :: 0 <= k < |db.SectionsOf(p)| && db.SectionsOf(p)[k].id == sid
                                && r.value.sectionId == sid
                                && r.value.sectionIndex == db.SectionsOf(p)[k].sectionIndex
                                && r.value.kind == TypeName(db.SectionsOf(p)[k].kind)
                                && r.value.audioUrl == db.SectionsOf(p)[k].narrationAudioPath
                                && r.value.narrationText == db.SectionsOf(p)[k].narration
                                && r.value.duration == db.SectionsOf(p)[k].duration
  {
    match FindSection(db.SectionsOf(p), sid)
    case None => Err(SectionNotFound)
    case Some(k) =>
      var s := db.SectionsOf(p)[k];
      Ok(SectionNarration(sid, s.sectionIndex, TypeName(s.kind), s.narration, s.narrationAudioPath, s.duration))
  }
}
