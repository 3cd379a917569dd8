/**
 * The preference API handlers: recording corrections (typed in, or derived
 * from a visual diff), creating, updating and deactivating preferences, and
 * evolving preferences from the most recent corrections.
 */
module PreferencesApi {
  import opened Wrappers
  import opened Text
  import opened Seqs
  import opened CorrectionStore
  import opened PreferenceEngine
  import VisualDiff

  // ---------------------------------------------------------------------------
  // Corrections

  /** The body of `POST /corrections`. */
  datatype CorrectionRequest = CorrectionRequest(
    projectId: string, sectionId: Option<string>, stage: string, category: string, fieldPath: string,
    priorValue: Option<string>, newValue: Option<string>, originalPrompt: Option<string>, userFeedback: Option<string>)

  /** The event a correction request records: its nine fields, with no image paths and no diff. */
  function EventOf(req: CorrectionRequest): (e: CorrectionEvent)
    ensures e.projectId == req.projectId && e.sectionId == req.sectionId && e.stage == req.stage
    ensures e.category == req.category && e.fieldPath == req.fieldPath
    ensures e.priorValue == req.priorValue && e.newValue == req.newValue
    ensures e.originalPrompt == req.originalPrompt && e.userFeedback == req.userFeedback
    ensures e.originalImagePath.None? && e.editedImagePath.None? && e.visualDiffDescription.None?
  {
    CorrectionEvent(req.projectId, req.sectionId, req.stage, req.category, req.fieldPath,
                    req.priorValue, req.newValue, req.originalPrompt, req.userFeedback, None, None, None)
  }

  /** `record_correction`: the request's event is appended to the log and returned. */
  method RecordCorrection(store: Store, req: CorrectionRequest) returns (status: string, row: Correction)
    requires store.Valid()
    modifies store
    ensures store.Valid()
    ensures status == "recorded"
    ensures store.log == old(store.log) + [row] && row == Correction(|old(store.log)|, EventOf(req))
  {
    row := store.RecordCorrection(EventOf(req));
    status := "recorded";
  }

  /** The body of `POST /visual-diff`. */
  datatype VisualDiffRequest = VisualDiffRequest(projectId: string, sectionId: string, originalImage: string, editedImage: string)

  /** An image as the log keeps it: its first 100 characters and "...". */
  function Shortened(image: string): (r: string)
    ensures 3 <= |r| <= 103 && r[|r| - 3..] == "..."
    ensures StartsWith(r, Take(image, 100))
    ensures |image| <= 100 ==> r == image + "..."
  {
    var t := Take(image, 100);
    assert (t + "...")[..|t|] == t;
    t + "..."
  }

  /** The event a visual diff records: an image style correction of the slide image, with the overall preference. */
  function DiffEvent(req: VisualDiffRequest, result: VisualDiff.VisualDiffResult): (e: CorrectionEvent)
    ensures e.projectId == req.projectId && e.sectionId == Some(req.sectionId)
    ensures e.stage == "image" && e.category == "style" && e.fieldPath == "slide_image"
    ensures e.originalImagePath == Some(Shortened(req.originalImage))
    ensures e.editedImagePath == Some(Shortened(req.editedImage))
    ensures e.visualDiffDescription == Some(result.overallPreference)
    ensures e.priorValue.None? && e.newValue.None? && e.originalPrompt.None? && e.userFeedback.None?
  {
    CorrectionEvent(req.projectId, Some(req.sectionId), "image", "style", "slide_image",
                    None, None, None, None,
                    Some(Shortened(req.originalImage)), Some(Shortened(req.editedImage)),
                    Some(result.overallPreference))
  }

  /**
   * `analyze_visual_diff`: the two images are compared; when the analysis
   * fails nothing is recorded; otherwise one event is appended and the
   * changes and the overall preference are returned.
   */
  method AnalyzeVisualDiff(store: Store, env: VisualDiff.DiffEnv, req: VisualDiffRequest)
    returns (r: Result<VisualDiff.VisualDiffResult, VisualDiff.DiffError>)
    requires store.Valid()
    modifies store
    ensures store.Valid()
    ensures r == VisualDiff.AnalyzeDiff(env, req.originalImage, req.editedImage)
    ensures r.Err? ==> store.log == old(store.log)
    ensures r.Ok? ==> store.log == old(store.log) + [Correction(|old(store.log)|, DiffEvent(req, r.value))]
  {
    r := VisualDiff.AnalyzeDiff(env, req.originalImage, req.editedImage);
    if r.Ok? {
      var _ := store.RecordCorrection(DiffEvent(req, r.value));
    }
  }

  // ---------------------------------------------------------------------------
  // Preferences

  /** The body of `POST /preferences`. */
  datatype PreferenceCreate = PreferenceCreate(
    description: string, category: string, scope: string,
    sectionType: Option<string>, projectId: Option<string>, confidence: real)

  /** The preference a create request builds: its six fields, no sources, active, version 1. */
  function PreferenceOf(req: PreferenceCreate): (p: Preference)
    ensures p.description == req.description && p.category == req.category && p.scope == req.scope
    ensures p.sectionType == req.sectionType && p.projectId == req.projectId && p.confidence == req.confidence
    ensures p.sourceCorrections == [] && p.isActive && p.promptVersion == 1
  {
    Preference(req.description, req.category, req.scope, req.sectionType, req.projectId, req.confidence, [], true, 1)
  }

  /** `create_preference`: the preference is saved and returned. */
  method CreatePreference(table: PreferenceTable, req: PreferenceCreate) returns (status: string, row: PrefRow)
    requires table.Valid()
    modifies table
    ensures table.Valid()
    ensures status == "created"
    ensures table.rows == old(table.rows) + [row] && row == PrefRow(|old(table.rows)|, PreferenceOf(req))
  {
    row := table.SavePreference(PreferenceOf(req));
    status := "created";
  }

  /** The body of `PUT /preferences/{id}`: each field may be left out. */
  datatype PreferenceUpdate = PreferenceUpdate(description: Option<string>, confidence: Option<real>, isActive: Option<bool>)

  /** The partial-update dictionary of a request. */
  function UpdatesOf(req: PreferenceUpdate): map<string, UpdateValue> {
    var m0: map<string, UpdateValue> := map[];
    var m1 := if req.description.Some? then m0["description" := StrValue(req.description.value)] else m0;
    var m2 := if req.confidence.Some? then m1["confidence" := RealValue(req.confidence.value)] else m1;
    if req.isActive.Some? then m2["is_active" := BoolValue(req.isActive.value)] else m2
  }

  /**
   * `update_preference`, building the dictionary: it holds exactly the
   * fields the request gives, with their values, `False` included.
   */
  method BuildUpdates(req: PreferenceUpdate) returns (updates: map<string, UpdateValue>)
    ensures updates == UpdatesOf(req)
    ensures forall k :: k in updates ==> k == "description" || k == "confidence" || k == "is_active"
    ensures "description" in updates <==> req.description.Some?
    ensures "confidence" in updates <==> req.confidence.Some?
    ensures "is_active" in updates <==> req.isActive.Some?
    ensures req.description.Some? ==> updates["description"] == StrValue(req.description.value)
    ensures req.confidence.Some? ==> updates["confidence"] == RealValue(req.confidence.value)
    ensures req.isActive.Some? ==> updates["is_active"] == BoolValue(req.isActive.value)
  {
    updates := map[];
    if req.description.Some? {
      updates := updates["description" := StrValue(req.description.value)];
    }
    if req.confidence.Some? {
      updates := updates["confidence" := RealValue(req.confidence.value)];
    }
    if req.isActive.Some? {
      updates := updates["is_active" := BoolValue(req.isActive.value)];
    }
  }

  /**
   * Applied to a stored preference, a request changes exactly the fields
   * it gives; a request that gives none changes nothing.
   */
  lemma UpdateApplies(p: Preference, req: PreferenceUpdate)
    ensures ApplyUpdates(p, UpdatesOf(req)) ==
      p.(description := req.description.GetOr(p.description),
         confidence := req.confidence.GetOr(p.confidence),
         isActive := req.isActive.GetOr(p.isActive))
    ensures req == PreferenceUpdate(None, None, None) ==> ApplyUpdates(p, UpdatesOf(req)) == p
  {
    var m := UpdatesOf(req);
    var q := ApplyUpdates(p, m);
    assert "description" in m <==> req.description.Some?;
    assert "confidence" in m <==> req.confidence.Some?;
    assert "is_active" in m <==> req.isActive.Some?;
    if req.description.Some? {
      assert m["description"] == StrValue(req.description.value);
    }
    if req.confidence.Some? {
      assert m["confidence"] == RealValue(req.confidence.value);
    }
    if req.isActive.Some? {
      assert m["is_active"] == BoolValue(req.isActive.value);
    }
  }

  /** `update_preference`: the row with the id takes the fields the request gives. */
  method UpdatePreference(table: PreferenceTable, id: nat, req: PreferenceUpdate) returns (status: string, row: Option<PrefRow>)
    requires table.Valid()
    modifies table
    ensures table.Valid()
    ensures status == "updated"
    ensures id < |old(table.rows)| ==>
      table.rows == old(table.rows)[id := PrefRow(id, ApplyUpdates(old(table.rows)[id].pref, UpdatesOf(req)))] &&
      row == Some(table.rows[id])
    ensures id >= |old(table.rows)| ==> table.rows == old(table.rows) && row.None?
  {
    var updates := BuildUpdates(req);
    row := table.UpdatePreference(id, updates);
    status := "updated";
  }

  /** `deactivate_preference`: "deactivated" when the row existed and is now inactive, else "failed". */
  method DeactivatePreference(table: PreferenceTable, id: nat) returns (status: string)
    requires table.Valid()
    modifies table
    ensures table.Valid()
    ensures status == "deactivated" <==> id < |old(table.rows)|
    ensures status == "deactivated" || status == "failed"
    ensures id < |old(table.rows)| ==> table.rows == old(table.rows)[id := PrefRow(id, old(table.rows)[id].pref.(isActive := false))]
    ensures id >= |old(table.rows)| ==> table.rows == old(table.rows)
  {
    var ok := table.DeactivatePreference(id);
    status := if ok then "deactivated" else "failed";
  }

  // ---------------------------------------------------------------------------
  // Evolving

  /** The reply of `evolve_preferences`. */
  datatype EvolveReport =
    | NoCorrections
    | Evolved(correctionsAnalyzed: nat, preferencesCreated: nat, saved: seq<PrefRow>)

  /** The rows that saving `prefs` in order appends to a table of `start` rows. */
  function SavedRows(start: nat, prefs: seq<Preference>): (rows: seq<PrefRow>)
    ensures |rows| == |prefs|
  {
    seq(|prefs|, k requires 0 <= k < |prefs| => PrefRow(start + k, prefs[k]))
  }

  /**
   * `evolve_preferences`: the newest `limit` corrections are read; without
   * any, nothing is saved; otherwise one preference row is saved for each
   * inferred preference, in order, and the report counts the corrections
   * read and the rows saved.
   */
  method EvolvePreferences(store: Store, table: PreferenceTable, env: InferEnv, limit: nat) returns (report: EvolveReport)
    requires store.Valid() && table.Valid()
    modifies table
    ensures table.Valid()
    ensures var corrections := store.GetRecentCorrections(limit);
      && (corrections == [] ==> report == NoCorrections && table.rows == old(table.rows))
      && (corrections != [] ==>
            var saved := SavedRows(|old(table.rows)|, Inferred(env, corrections));
            && report == Evolved(|corrections|, |saved|, saved)
            && table.rows == old(table.rows) + saved)
    ensures report == NoCorrections <==> limit == 0 || store.log == []
  {
    var corrections := store.GetRecentCorrections(limit);
    if corrections == [] {
      return NoCorrections;
    }
    var inferred := InferPreferences(env, corrections);
    var saved := SaveAll(table, inferred);
    report := Evolved(|corrections|, |saved|, saved);
  }

  /** The saving loop of `evolve_preferences`: one row per preference, in order. */
  method SaveAll(table: PreferenceTable, prefs: seq<Preference>) returns (saved: seq<PrefRow>)
    requires table.Valid()
    modifies table
    ensures table.Valid()
    ensures saved == SavedRows(|old(table.rows)|, prefs)
    ensures table.rows == old(table.rows) + saved
  {
    saved := [];
    for i := 0 to |prefs|
      invariant table.Valid()
      invariant saved == SavedRows(|old(table.rows)|, prefs[..i])
      invariant table.rows == old(table.rows) + saved
    {
      var row := table.SavePreference(prefs[i]);
      assert prefs[..i + 1] == prefs[..i] + [prefs[i]];
      saved := saved + [row];
    }
    assert prefs[..|prefs|] == prefs;
  }
}
