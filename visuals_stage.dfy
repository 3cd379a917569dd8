/**
 * The visuals stage: every section of a project gets an HTML slide,
 * rendered from its visual spec and stored as a data URL; a single section
 * can be re-rendered, optionally with a new spec.
 */
module VisualsStage {
  import opened Wrappers
  import opened Text
  import opened Schema
  import opened Store
  import SlideRenderer

  datatype VisualsError = ProjectNotFound | ScriptNotGenerated | SectionNotFound

  /** One entry of the list `generate_visuals` returns. */
  datatype SlideResult = SlideResult(sectionId: SectionId, sectionIndex: nat, kind: string, slideUrl: string)

  /** `section.get("visual_spec") or {}`. */
  function SpecOrEmpty(spec: Option<VisualSpec>): (r: VisualSpec)
    ensures spec.Some? ==> r == spec.value
    ensures spec.None? ==> r == map[]
  {
    if spec.Some? then spec.value else map[]
  }

  /** The slide a row's spec and type render to. */
  function SlideUrl(env: SlideRenderer.RenderEnv, s: Section): string {
    SlideRenderer.SlideDataUrl(env, SpecOrEmpty(s.visualSpec), TypeName(s.kind))
  }

  /** The row's stored slide is the one its current spec and type render to. */
  predicate SlideCurrent(env: SlideRenderer.RenderEnv, s: Section) {
    s.slideImagePath == Some(SlideUrl(env, s))
  }

  /** The rows with the first `k` of them given their rendered slide. */
  function WithSlides(env: SlideRenderer.RenderEnv, secs: seq<Section>, k: nat): (r: seq<Section>)
    ensures |r| == |secs|
  {
    seq(|secs|, i requires 0 <= i < |secs| =>
      if i < k then ApplyPatch(secs[i], SetSlide(SlideUrl(env, secs[i]))) else secs[i])
  }

  /** The rows after the stage: every one with its rendered slide. */
  function Slides(env: SlideRenderer.RenderEnv, secs: seq<Section>): seq<Section> {
    WithSlides(env, secs, |secs|)
  }

  /**
   * Every row ends up with the slide its spec renders to, as a `text/html`
   * data URL, and with nothing else changed; rendering again changes nothing.
   */
  lemma SlidesFacts(env: SlideRenderer.RenderEnv, secs: seq<Section>)
    ensures |Slides(env, secs)| == |secs|
    ensures forall k :: 0 <= k < |secs| ==>
      && SlideCurrent(env, Slides(env, secs)[k])
      && Slides(env, secs)[k].(slideImagePath := secs[k].slideImagePath) == secs[k]
      && StartsWith(Slides(env, secs)[k].slideImagePath.value, "data:text/html;base64,")
    ensures Slides(env, Slides(env, secs)) == Slides(env, secs)
  {
  }

  /** What the stage returns: one result per row, in row order. */
  function SlideResults(env: SlideRenderer.RenderEnv, secs: seq<Section>): (r: seq<SlideResult>)
    ensures |r| == |secs|
    ensures forall k :: 0 <= k < |r| ==>
      r[k] == SlideResult(secs[k].id, secs[k].sectionIndex, TypeName(secs[k].kind), SlideUrl(env, secs[k]))
  {
    seq(|secs|, k requires 0 <= k < |secs| =>
      SlideResult(secs[k].id, secs[k].sectionIndex, TypeName(secs[k].kind), SlideUrl(env, secs[k])))
  }

  /**
   * `generate_visuals`: refused for an unknown project and before a script
   * exists, changing nothing; otherwise every section gets its slide, the
   * results come back in section order, and the state becomes
   * `visuals_done` (also from `composed`, also with no sections).
   */
  method GenerateVisuals(db: Database, env: SlideRenderer.RenderEnv, p: ProjectId)
    returns (r: Result<seq<SlideResult>, VisualsError>)
    requires db.Valid()
    modifies db
    ensures db.Valid()
    ensures p !in old(db.projects) ==> r == Err(ProjectNotFound)
    ensures p in old(db.projects) && old(db.projects[p]).state == Init ==> r == Err(ScriptNotGenerated)
    ensures r.Ok? <==> p in old(db.projects) && old(db.projects[p]).state != Init
    ensures r.Err? ==> unchanged(db)
    ensures r.Ok? ==> r.value == SlideResults(env, old(db.SectionsOf(p)))
    ensures r.Ok? ==> forall k :: 0 <= k < |r.value| ==> r.value[k].sectionIndex == k
    ensures r.Ok? ==> db.projects == old(db.projects)[p := old(db.projects[p]).(state := VisualsDone)]
    ensures r.Ok? ==> db.sections ==
                      if p in old(db.sections) then old(db.sections)[p := Slides(env, old(db.sections[p]))]
                      else old(db.sections)
  {
    if p !in db.projects {
      return Err(ProjectNotFound);
    }
    if db.projects[p].state == Init {
      return Err(ScriptNotGenerated);
    }
    var results := RenderAll(db, env, p);
    db.SetState(p, VisualsDone);
    r := Ok(results);
  }

  /** The loop of `generate_visuals`: each row of `p`, in order, gets its slide. */
  method RenderAll(db: Database, env: SlideRenderer.RenderEnv, p: ProjectId) returns (results: seq<SlideResult>)
    requires db.Valid()
    modifies db
    ensures db.Valid()
    ensures results == SlideResults(env, old(db.SectionsOf(p)))
    ensures db.projects == old(db.projects) && db.nextSectionId == old(db.nextSectionId)
    ensures db.sections == if p in old(db.sections) then old(db.sections)[p := Slides(env, old(db.sections[p]))]
                           else old(db.sections)
  {
    var secs := db.SectionsOf(p);
    results := [];
    if p in db.sections {
      assert WithSlides(env, secs, 0) == secs;
      assert db.sections == db.sections[p := WithSlides(env, secs, 0)];
    }
    for k := 0 to |secs|
      invariant db.Valid()
      invariant db.projects == old(db.projects) && db.nextSectionId == old(db.nextSectionId)
      invariant p in old(db.sections) ==> db.sections == old(db.sections)[p := WithSlides(env, secs, k)]
      invariant p !in old(db.sections) ==> db.sections == old(db.sections)
      invariant results == SlideResults(env, secs)[..k]
    {
      var url := SlideUrl(env, secs[k]);
      db.PatchSection(p, k, SetSlide(url));
      WithSlidesStep(env, secs, k);
      ListWrittenTwice(old(db.sections), p, WithSlides(env, secs, k), WithSlides(env, secs, k + 1));
      results := results + [SlideResult(secs[k].id, secs[k].sectionIndex, TypeName(secs[k].kind), url)];
      assert results == SlideResults(env, secs)[..k + 1];
    }
  }

  lemma WithSlidesStep(env: SlideRenderer.RenderEnv, secs: seq<Section>, k: nat)
    requires k < |secs|
    ensures WithSlides(env, secs, k)[k := ApplyPatch(secs[k], SetSlide(SlideUrl(env, secs[k])))] == WithSlides(env, secs, k + 1)
  {
  }

  /** The spec in force when re-rendering: a non-empty new spec replaces the stored one. */
  function SpecInForce(s: Section, newSpec: Option<VisualSpec>): Option<VisualSpec> {
    if newSpec.Some? && newSpec.value != map[] then newSpec else s.visualSpec
  }

  /** The row after re-rendering: the spec in force, and the slide it renders to. */
  function Rerendered(env: SlideRenderer.RenderEnv, s: Section, newSpec: Option<VisualSpec>): Section {
    var t := s.(visualSpec := SpecInForce(s, newSpec));
    t.(slideImagePath := Some(SlideUrl(env, t)))
  }

  /**
   * A re-rendered row shows the slide of its spec; it keeps its stored spec
   * unless a non-empty one is given, and no other column changes.
   */
  lemma RerenderedFacts(env: SlideRenderer.RenderEnv, s: Section, newSpec: Option<VisualSpec>)
    ensures SlideCurrent(env, Rerendered(env, s, newSpec))
    ensures newSpec.None? || newSpec.value == map[] ==> Rerendered(env, s, newSpec).visualSpec == s.visualSpec
    ensures newSpec.Some? && newSpec.value != map[] ==> Rerendered(env, s, newSpec).visualSpec == newSpec
    ensures Rerendered(env, s, newSpec).(visualSpec := s.visualSpec, slideImagePath := s.slideImagePath) == s
  {
  }

  /** Re-renders row `k` of `p`, storing a non-empty new spec first; returns the new slide. */
  method Rerender(db: Database, env: SlideRenderer.RenderEnv, p: ProjectId, k: nat, newSpec: Option<VisualSpec>)
    returns (url: string)
    requires db.Valid() && k < |db.SectionsOf(p)|
    modifies db
    ensures db.Valid()
    ensures var t := Rerendered(env, old(db.sections[p][k]), newSpec);
      db.sections == old(db.sections)[p := old(db.sections[p])[k := t]] && url == t.slideImagePath.value
    ensures db.projects == old(db.projects)
  {
    var s := db.sections[p][k];
    ghost var rows := db.sections[p];
    var spec := StoreSpec(db, p, k, newSpec);
    var t := s.(visualSpec := spec);
    assert db.sections[p][k] == t;
    url := SlideUrl(env, t);
    db.PatchSection(p, k, SetSlide(url));
    RowWrittenTwice(rows, k, t, Rerendered(env, s, newSpec));
    ListWrittenTwice(old(db.sections), p, rows[k := t], rows[k := Rerendered(env, s, newSpec)]);
  }

  /** Stores a non-empty new spec on row `k` of `p`; returns the spec in force. */
  method StoreSpec(db: Database, p: ProjectId, k: nat, newSpec: Option<VisualSpec>) returns (spec: Option<VisualSpec>)
    requires db.Valid() && k < |db.SectionsOf(p)|
    modifies db
    ensures db.Valid()
    ensures spec == SpecInForce(old(db.sections[p][k]), newSpec)
    ensures db.sections == old(db.sections)[p := old(db.sections[p])[k := old(db.sections[p][k]).(visualSpec := spec)]]
    ensures db.projects == old(db.projects) && db.nextSectionId == old(db.nextSectionId)
  {
    spec := db.sections[p][k].visualSpec;
    if newSpec.Some? && newSpec.value != map[] {
      db.PatchSection(p, k, SetSpec(newSpec.value));
      spec := newSpec;
    } else {
      assert db.sections[p][k].(visualSpec := spec) == db.sections[p][k];
      assert db.sections[p][k := db.sections[p][k]] == db.sections[p];
    }
  }

  /**
   * `regenerate_section_visual`: refused when the section is not one of the
   * project's; otherwise a non-empty new spec is stored first, and the slide
   * is re-rendered from the spec now in force. Only that row changes; the
   * project state does not.
   */
  method RegenerateSectionVisual(db: Database, env: SlideRenderer.RenderEnv, p: ProjectId, sid: SectionId,
                                 newSpec: Option<VisualSpec>)
    returns (r: Result<SlideResult, VisualsError>)
    requires db.Valid()
    modifies db
    ensures db.Valid()
    ensures r.Err? <==> FindSection(old(db.SectionsOf(p)), sid).None?
    ensures r.Err? ==> r == Err(SectionNotFound) && unchanged(db)
    ensures r.Ok? ==>
      var k := FindSection(old(db.SectionsOf(p)), sid).value;
      var t := Rerendered(env, old(db.sections[p][k]), newSpec);
      && db.sections == old(db.sections)[p := old(db.sections[p])[k := t]]
      && r.value == SlideResult(sid, t.sectionIndex, TypeName(t.kind), t.slideImagePath.value)
    ensures db.projects == old(db.projects)
  {
    var found := FindSection(db.SectionsOf(p), sid);
    if found.None? {
      return Err(SectionNotFound);
    }
    var k := found.value;
    var s := db.sections[p][k];
    var url := Rerender(db, env, p, k, newSpec);
    r := Ok(SlideResult(sid, s.sectionIndex, TypeName(s.kind), url));
  }

  /** What `get_section_slide` reports for a section. */
  datatype SectionSlide = SectionSlide(
    sectionId: SectionId, sectionIndex: nat, kind: string,
    visualSpec: Option<VisualSpec>, slideUrl: Option<string>, narration: Option<string>)

  /** `get_section_slide`: the stored row's spec, slide and narration; changes nothing. */
  function GetSectionSlide(db: Database, p: ProjectId, sid: SectionId): (r: Result<SectionSlide, VisualsError>)
    reads db
    ensures r.Err? <==> FindSection(db.SectionsOf(p), sid).None?
    ensures r.Err? ==> r.error == SectionNotFound
    ensures r.Ok? ==> exists k :: 0 <= k < |db.SectionsOf(p)| && db.SectionsOf(p)[k].id == sid
                                && r.value.sectionId == sid
                                && r.value.sectionIndex == db.SectionsOf(p)[k].sectionIndex
                                && r.value.kind == TypeName(db.SectionsOf(p)[k].kind)
                                && r.value.slideUrl == db.SectionsOf(p)[k].slideImagePath
                                && r.value.visualSpec == db.SectionsOf(p)[k].visualSpec
                                && r.value.narration == db.SectionsOf(p)[k].narration
  {
    match FindSection(db.SectionsOf(p), sid)
    case None => Err(SectionNotFound)
    case Some(k) =>
      var s := db.SectionsOf(p)[k];
      Ok(SectionSlide(sid, s.sectionIndex, TypeName(s.kind), s.visualSpec, s.slideImagePath, s.narration))
  }
}
