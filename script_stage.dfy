/**
 * The script stage: a script is written for a project (or supplied by the
 * user), stored on the project, and turned into the project's section rows.
 */
module ScriptStage {
  import opened Wrappers
  import opened Schema
  import opened Store
  import Claude

  datatype ScriptStageError = ProjectNotFound | ScriptFailed(cause: Claude.ScriptError)

  /** `section.get("type", "slide")`, checked against the section types: anything else becomes a slide. */
  function CoerceType(kind: Option<string>): (t: SectionType)
    ensures kind.Some? && ParseType(kind.value).Some? ==> TypeName(t) == kind.value
    ensures kind.None? || ParseType(kind.value).None? ==> t == Slide
  {
    if kind.None? then Slide
    else match ParseType(kind.value)
      case Some(t) => t
      case None => Slide
  }

  /** The row drafted from the script entry at position `idx`. */
  function Draft(p: ProjectId, idx: nat, e: ScriptEntry): SectionDraft {
    SectionDraft(p, idx, CoerceType(e.kind), e.duration, e.narration, e.visualSpec)
  }

  /** The drafts of all entries, in script order. */
  function Drafts(p: ProjectId, entries: seq<ScriptEntry>): (ds: seq<SectionDraft>)
    ensures |ds| == |entries|
  {
    seq(|entries|, k requires 0 <= k < |entries| => Draft(p, k, entries[k]))
  }

  /** The loop collecting `sections_data`, one draft per entry. */
  method BuildSections(p: ProjectId, entries: seq<ScriptEntry>) returns (drafts: seq<SectionDraft>)
    ensures drafts == Drafts(p, entries)
  {
    drafts := [];
    for idx := 0 to |entries|
      invariant drafts == Drafts(p, entries[..idx])
    {
      drafts := drafts + [Draft(p, idx, entries[idx])];
    }
    assert entries[..|entries|] == entries;
  }

  /**
   * The sections table after a script is stored for `p`: with at least one
   * entry, `p`'s rows are exactly one fresh row per entry, numbered in
   * script order, typed by the entry (a slide when the type is missing or
   * unknown) and carrying its duration, narration and visual spec, with no
   * derived artifact yet; with no entry the table is untouched. Other
   * projects' rows never change.
   */
  function Rebuilt(sections: map<ProjectId, seq<Section>>, next: nat, p: ProjectId, script: Script)
    : (r: map<ProjectId, seq<Section>>)
    ensures forall q :: q != p ==> (q in r <==> q in sections) && (q in r ==> r[q] == sections[q])
    ensures |script.Entries()| == 0 ==> r == sections
    ensures |script.Entries()| > 0 ==> p in r && |r[p]| == |script.Entries()|
    ensures |script.Entries()| > 0 ==> forall k :: 0 <= k < |r[p]| ==>
      var e := script.Entries()[k];
      && r[p][k].id == next + k && r[p][k].projectId == p && r[p][k].sectionIndex == k
      && r[p][k].kind == CoerceType(e.kind)
      && r[p][k].duration == e.duration && r[p][k].narration == e.narration && r[p][k].visualSpec == e.visualSpec
      && r[p][k].slideImagePath.None? && r[p][k].narrationAudioPath.None? && r[p][k].contentHash.None?
  {
    var entries := script.Entries();
    if |entries| > 0 then sections[p := Inserted(next, Drafts(p, entries))] else sections
  }

  /** Builds the drafts and, when there is at least one, replaces the project's rows with them. */
  method StoreSections(db: Database, p: ProjectId, script: Script)
    requires db.Valid() && p in db.projects
    modifies db
    ensures db.Valid()
    ensures db.sections == Rebuilt(old(db.sections), old(db.nextSectionId), p, script)
    ensures db.projects == old(db.projects)
  {
    var drafts := BuildSections(p, script.Entries());
    if |drafts| > 0 {
      db.ReplaceSections(p, drafts);
    }
  }

  /**
   * `generate_script`: an unknown project, or a failing script service,
   * changes nothing; otherwise the script is stored, the state becomes
   * `script_done` whatever it was, and the sections are rebuilt.
   */
  method GenerateScript(db: Database, env: Claude.ClaudeEnv, p: ProjectId) returns (r: Result<Script, ScriptStageError>)
    requires db.Valid()
    modifies db
    ensures db.Valid()
    ensures p !in old(db.projects) ==> r == Err(ProjectNotFound)
    ensures p in old(db.projects) ==>
      var written := Claude.GenerateScript(env, old(db.projects[p]).theme, old(db.projects[p]).durationTarget);
      (written.Err? ==> r == Err(ScriptFailed(written.error))) && (written.Ok? ==> r == Ok(written.value))
    ensures r.Err? ==> unchanged(db)
    ensures r.Ok? ==> db.projects == old(db.projects)[p := old(db.projects[p]).(script := Some(r.value), state := ScriptDone)]
    ensures r.Ok? ==> db.sections == Rebuilt(old(db.sections), old(db.nextSectionId), p, r.value)
  {
    if p !in db.projects {
      return Err(ProjectNotFound);
    }
    var project := db.projects[p];
    var written := Claude.GenerateScript(env, project.theme, project.durationTarget);
    if written.Err? {
      return Err(ScriptFailed(written.error));
    }
    var script := written.value;
    db.SetScript(p, script, ScriptDone);
    StoreSections(db, p, script);
    r := Ok(script);
  }

  /**
   * `update_script`: the script is stored and the sections rebuilt, the
   * state is left as it is; an unknown project changes nothing.
   */
  method UpdateScript(db: Database, p: ProjectId, script: Script) returns (r: Result<Script, ScriptStageError>)
    requires db.Valid()
    modifies db
    ensures db.Valid()
    ensures r.Ok? <==> p in old(db.projects)
    ensures r.Err? ==> r == Err(ProjectNotFound) && unchanged(db)
    ensures r.Ok? ==> r.value == script
    ensures r.Ok? ==> db.projects == old(db.projects)[p := old(db.projects[p]).(script := Some(script))]
    ensures r.Ok? ==> db.sections == Rebuilt(old(db.sections), old(db.nextSectionId), p, script)
  {
    if p !in db.projects {
      return Err(ProjectNotFound);
    }
    db.SetScript(p, script, db.projects[p].state);
    StoreSections(db, p, script);
    r := Ok(script);
  }
}
