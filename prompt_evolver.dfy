/**
 * The prompt evolver: the preferences that apply to a generation are read
 * from the preference table, and those applied silently (confidence 0.85 or
 * more) are appended to the prompt as instructions; those in the suggestion
 * band are offered to the user instead.
 */
module PromptEvolver {
  import opened Wrappers
  import opened Text
  import opened Seqs
  import opened Sorting
  import opened PreferenceEngine

  const ScriptHeader := "\n\n## ユーザーの好み（自動適用）\n以下のスタイル・構造の好みを反映してください：\n"
  const VisualHeader := "\n\nスタイルの好み:\n"
  const NarrationHeader := "\n\nトーン・スタイルの好み:\n"

  /** `f"{confidence:.0%}"`; float formatting is outside the model. */
  type Percent = real -> string

  // ---------------------------------------------------------------------------
  // Instructions

  /** One instruction: the section type in brackets when it is set, the description, the confidence. */
  function InstructionLine(pct: Percent, r: PrefRow): string {
    var tail := " (確信度: " + pct(r.pref.confidence) + ")";
    if Truthy(r.pref.sectionType) then "- [" + r.pref.sectionType.value + "] " + r.pref.description + tail
    else "- " + r.pref.description + tail
  }

  /** The description occurs in its instruction. */
  lemma InstructionHasDescription(pct: Percent, r: PrefRow) returns (i: nat)
    ensures OccursAt(InstructionLine(pct, r), r.pref.description, i)
  {
    var tail := " (確信度: " + pct(r.pref.confidence) + ")";
    if Truthy(r.pref.sectionType) {
      var head := "- [" + r.pref.sectionType.value + "] ";
      OccursMiddle(head, r.pref.description, tail);
      i := |head|;
    } else {
      OccursMiddle("- ", r.pref.description, tail);
      i := 2;
    }
  }

  function InstructionLines(pct: Percent, prefs: seq<PrefRow>): (lines: seq<string>)
    ensures |lines| == |prefs|
  {
    seq(|prefs|, k requires 0 <= k < |prefs| => InstructionLine(pct, prefs[k]))
  }

  function Instructions(pct: Percent, prefs: seq<PrefRow>): string {
    Join("\n", InstructionLines(pct, prefs))
  }

  /** Every preference's description occurs in the instructions. */
  lemma InstructionsHave(pct: Percent, prefs: seq<PrefRow>, k: nat) returns (i: nat)
    requires k < |prefs|
    ensures OccursAt(Instructions(pct, prefs), prefs[k].pref.description, i)
  {
    var lines := InstructionLines(pct, prefs);
    var at := JoinHas("\n", lines, k);
    var within := InstructionHasDescription(pct, prefs[k]);
    OccursCompose(Instructions(pct, prefs), lines[k], prefs[k].pref.description, at, within);
    i := at + within;
  }

  /**
   * `_format_preferences_as_instructions`: one line per preference, in
   * order, joined by newlines; each preference's description is in the text.
   */
  method FormatInstructions(pct: Percent, prefs: seq<PrefRow>) returns (text: string)
    ensures text == Instructions(pct, prefs)
    ensures forall k :: 0 <= k < |prefs| ==> Contains(text, prefs[k].pref.description)
  {
    var lines: seq<string> := [];
    for i := 0 to |prefs|
      invariant lines == InstructionLines(pct, prefs[..i])
    {
      lines := lines + [InstructionLine(pct, prefs[i])];
    }
    assert prefs[..|prefs|] == prefs;
    text := Join("\n", lines);
    forall k | 0 <= k < |prefs| ensures Contains(text, prefs[k].pref.description) {
      var i := InstructionsHave(pct, prefs, k);
      OccursContains(text, prefs[k].pref.description, i);
    }
  }

  // ---------------------------------------------------------------------------
  // Evolving a prompt

  /** The prompt as it is returned: unchanged without preferences, else with the header and the instructions. */
  function Evolved(base: string, header: string, pct: Percent, prefs: seq<PrefRow>): string {
    if prefs == [] then base else base + header + Instructions(pct, prefs) + "\n"
  }

  /**
   * An evolved prompt starts with the base prompt; it is the base prompt
   * exactly when no preference is selected; and it holds the description
   * of every selected preference.
   */
  lemma EvolvedFacts(base: string, header: string, pct: Percent, prefs: seq<PrefRow>)
    ensures StartsWith(Evolved(base, header, pct, prefs), base)
    ensures Evolved(base, header, pct, prefs) == base <==> prefs == []
    ensures forall k :: 0 <= k < |prefs| ==> Contains(Evolved(base, header, pct, prefs), prefs[k].pref.description)
  {
    var r := Evolved(base, header, pct, prefs);
    assert r[..|base|] == base;
    forall k | 0 <= k < |prefs| ensures Contains(r, prefs[k].pref.description) {
      var instr := Instructions(pct, prefs);
      var i := InstructionsHave(pct, prefs, k);
      OccursShift(base + header, instr, prefs[k].pref.description, i);
      assert r == (base + header + instr) + "\n";
      OccursExtend(base + header + instr, "\n", prefs[k].pref.description, |base + header| + i);
      OccursContains(r, prefs[k].pref.description, |base + header| + i);
    }
    if prefs != [] {
      assert |r| > |base|;
    }
  }

  /** The applicable preferences, by non-increasing confidence, that pass a selection. */
  function Selected(rows: seq<PrefRow>, sectionType: Option<string>, project: Option<string>, p: PrefRow -> bool): seq<PrefRow> {
    Keep(SortDesc(Gathered(rows, sectionType, project), Confidence), p)
  }

  /** A selection holds exactly the applicable rows that pass it, highest confidence first. */
  lemma SelectedFacts(rows: seq<PrefRow>, sectionType: Option<string>, project: Option<string>, p: PrefRow -> bool)
    ensures SortedDesc(Selected(rows, sectionType, project, p), Confidence)
    ensures forall x :: x in Selected(rows, sectionType, project, p) <==> x in rows && Applicable(x, sectionType, project) && p(x)
  {
    var all := SortDesc(Gathered(rows, sectionType, project), Confidence);
    SortDescFacts(Gathered(rows, sectionType, project), Confidence);
    SortDescMembers(Gathered(rows, sectionType, project), Confidence);
    GatheredMembers(rows, sectionType, project);
    KeepMembers(all, p);
    KeepSortedDesc(all, p, Confidence);
  }

  /**
   * The prompt is left alone exactly when no applicable row passes the
   * selection; otherwise every such row's description is in it.
   */
  lemma EvolvedSelection(rows: seq<PrefRow>, sectionType: Option<string>, project: Option<string>,
                         p: PrefRow -> bool, base: string, header: string, pct: Percent)
    ensures var r := Evolved(base, header, pct, Selected(rows, sectionType, project, p));
      && StartsWith(r, base)
      && (r == base <==> forall x :: x in rows && Applicable(x, sectionType, project) ==> !p(x))
      && (forall x :: x in rows && Applicable(x, sectionType, project) && p(x) ==> Contains(r, x.pref.description))
  {
    var sel := Selected(rows, sectionType, project, p);
    SelectedFacts(rows, sectionType, project, p);
    EvolvedFacts(base, header, pct, sel);
    forall x | x in rows && Applicable(x, sectionType, project) && p(x)
      ensures Contains(Evolved(base, header, pct, sel), x.pref.description)
    {
      var k :| 0 <= k < |sel| && sel[k] == x;
    }
    if sel != [] {
      assert sel[0] in sel;
    }
  }

  predicate StyleHigh(r: PrefRow) {
    r.pref.category == "style" && AutoApplied(r.pref.confidence)
  }

  predicate ToneHigh(r: PrefRow) {
    (r.pref.category == "content" || r.pref.category == "style") && AutoApplied(r.pref.confidence)
  }

  /**
   * `evolve_script_prompt`: the applicable preferences applied silently
   * are appended under the script header; without any, the prompt is
   * returned as it was.
   */
  method EvolveScriptPrompt(table: PreferenceTable, pct: Percent, base: string,
                            sectionType: Option<string>, project: Option<string>) returns (r: string)
    ensures r == Evolved(base, ScriptHeader, pct, Selected(table.rows, sectionType, project, IsHigh))
    ensures StartsWith(r, base)
    ensures r == base <==> forall x :: x in table.rows && Applicable(x, sectionType, project) ==> !AutoApplied(x.pref.confidence)
    ensures forall x :: x in table.rows && Applicable(x, sectionType, project) && AutoApplied(x.pref.confidence) ==>
      Contains(r, x.pref.description)
  {
    var prefs := table.GetApplicablePreferences(sectionType, project);
    var high := Keep(prefs, IsHigh);
    EvolvedSelection(table.rows, sectionType, project, IsHigh, base, ScriptHeader, pct);
    if high == [] {
      return base;
    }
    var instructions := FormatInstructions(pct, high);
    r := base + ScriptHeader + instructions + "\n";
  }

  /**
   * `evolve_visual_prompt`: as for the script, with only the style
   * preferences, under the style header.
   */
  method EvolveVisualPrompt(table: PreferenceTable, pct: Percent, base: string,
                            sectionType: Option<string>, project: Option<string>) returns (r: string)
    ensures r == Evolved(base, VisualHeader, pct, Selected(table.rows, sectionType, project, StyleHigh))
    ensures StartsWith(r, base)
    ensures r == base <==> forall x :: x in table.rows && Applicable(x, sectionType, project) ==> !StyleHigh(x)
    ensures forall x :: x in table.rows && Applicable(x, sectionType, project) && StyleHigh(x) ==>
      Contains(r, x.pref.description)
  {
    var prefs := table.GetApplicablePreferences(sectionType, project);
    var style := Keep(prefs, StyleHigh);
    EvolvedSelection(table.rows, sectionType, project, StyleHigh, base, VisualHeader, pct);
    if style == [] {
      return base;
    }
    var instructions := FormatInstructions(pct, style);
    r := base + VisualHeader + instructions + "\n";
  }

  /**
   * `evolve_narration_prompt`: the content and style preferences of the
   * project (no section type is passed), under the tone header.
   */
  method EvolveNarrationPrompt(table: PreferenceTable, pct: Percent, base: string,
                               project: Option<string>) returns (r: string)
    ensures r == Evolved(base, NarrationHeader, pct, Selected(table.rows, None, project, ToneHigh))
    ensures StartsWith(r, base)
    ensures r == base <==> forall x :: x in table.rows && Applicable(x, None, project) ==> !ToneHigh(x)
    ensures forall x :: x in table.rows && Applicable(x, None, project) && ToneHigh(x) ==>
      Contains(r, x.pref.description)
  {
    var prefs := table.GetApplicablePreferences(None, project);
    var tone := Keep(prefs, ToneHigh);
    EvolvedSelection(table.rows, None, project, ToneHigh, base, NarrationHeader, pct);
    if tone == [] {
      return base;
    }
    var instructions := FormatInstructions(pct, tone);
    r := base + NarrationHeader + instructions + "\n";
  }

  // ---------------------------------------------------------------------------
  // Suggestions

  const ActionPrefix := "この好みをプロンプトに追加: "

  /** One suggestion of `suggest_prompt_improvements`. */
  datatype Suggestion = Suggestion(id: nat, description: string, confidence: real, category: string, action: string)

  function SuggestionOf(r: PrefRow): Suggestion {
    Suggestion(r.id, r.pref.description, r.pref.confidence, r.pref.category, ActionPrefix + r.pref.description)
  }

  function Suggestions(prefs: seq<PrefRow>): (r: seq<Suggestion>)
    ensures |r| == |prefs|
  {
    seq(|prefs|, k requires 0 <= k < |prefs| => SuggestionOf(prefs[k]))
  }

  /**
   * `suggest_prompt_improvements`: one suggestion per applicable preference
   * of the suggestion band, highest confidence first, each proposing to add
   * its description; the prompt passed in is not consulted.
   */
  method SuggestPromptImprovements(table: PreferenceTable, currentPrompt: string, project: Option<string>)
    returns (r: seq<Suggestion>)
    ensures r == Suggestions(Selected(table.rows, None, project, IsSuggestion))
    ensures forall k :: 0 <= k < |r| ==> Suggested(r[k].confidence) && r[k].action == ActionPrefix + r[k].description
    ensures forall i, j :: 0 <= i < j < |r| ==> r[i].confidence >= r[j].confidence
    ensures forall x :: x in table.rows && Applicable(x, None, project) && Suggested(x.pref.confidence) ==>
      SuggestionOf(x) in r
  {
    var prefs := table.GetApplicablePreferences(None, project);
    r := SuggestionList(Keep(prefs, IsSuggestion));
    SuggestionsFacts(table.rows, project);
  }

  /** The loop of `suggest_prompt_improvements`: one suggestion per preference of the band, in order. */
  method SuggestionList(band: seq<PrefRow>) returns (r: seq<Suggestion>)
    ensures r == Suggestions(band)
  {
    r := [];
    for i := 0 to |band|
      invariant r == Suggestions(band[..i])
    {
      r := r + [SuggestionOf(band[i])];
    }
    assert band[..|band|] == band;
  }

  /** The suggestions are those of the band, each proposing its description, highest confidence first, none missing. */
  lemma SuggestionsFacts(rows: seq<PrefRow>, project: Option<string>)
    ensures var r := Suggestions(Selected(rows, None, project, IsSuggestion));
      && (forall k :: 0 <= k < |r| ==> Suggested(r[k].confidence) && r[k].action == ActionPrefix + r[k].description)
      && (forall i, j :: 0 <= i < j < |r| ==> r[i].confidence >= r[j].confidence)
      && (forall x :: x in rows && Applicable(x, None, project) && Suggested(x.pref.confidence) ==> SuggestionOf(x) in r)
  {
    var band := Selected(rows, None, project, IsSuggestion);
    var r := Suggestions(band);
    SelectedFacts(rows, None, project, IsSuggestion);
    forall i, j | 0 <= i < j < |r| ensures r[i].confidence >= r[j].confidence {
      assert Confidence(band[i]) >= Confidence(band[j]);
    }
    forall x | x in rows && Applicable(x, None, project) && Suggested(x.pref.confidence)
      ensures SuggestionOf(x) in r
    {
      var k :| 0 <= k < |band| && band[k] == x;
      assert r[k] == SuggestionOf(x);
    }
  }

  /** A preference is never both suggested and applied silently, whatever the scope of the two requests. */
  lemma SuggestedNotApplied(rows: seq<PrefRow>, st1: Option<string>, p1: Option<string>,
                            st2: Option<string>, p2: Option<string>, x: PrefRow)
    requires x in Selected(rows, st1, p1, IsSuggestion)
    ensures x !in Selected(rows, st2, p2, IsHigh)
  {
    SelectedFacts(rows, st1, p1, IsSuggestion);
    SelectedFacts(rows, st2, p2, IsHigh);
  }

  // ---------------------------------------------------------------------------
  // History

  /** One entry of `get_evolution_history`; the creation time is the row's insertion number. */
  datatype HistoryEntry = HistoryEntry(id: nat, description: string, promptVersion: int, confidence: real, createdAt: nat)

  function HistoryOf(r: PrefRow): HistoryEntry {
    HistoryEntry(r.id, r.pref.description, r.pref.promptVersion, r.pref.confidence, r.id)
  }

  function CreatedAt(h: HistoryEntry): real { h.createdAt as real }

  predicate OfProject(project: string, r: PrefRow) {
    r.pref.projectId == Some(project)
  }

  /** The entries of the rows of the project, in the order of the rows. */
  function ProjectHistory(project: string, prefs: seq<PrefRow>): seq<HistoryEntry>
    decreases |prefs|
  {
    if prefs == [] then []
    else
      var last := prefs[|prefs| - 1];
      ProjectHistory(project, prefs[..|prefs| - 1]) + (if OfProject(project, last) then [HistoryOf(last)] else [])
  }

  /** The history holds the entry of each row of the project and nothing else. */
  lemma {:induction false} ProjectHistoryMembers(project: string, prefs: seq<PrefRow>)
    ensures forall x :: x in prefs && OfProject(project, x) ==> HistoryOf(x) in ProjectHistory(project, prefs)
    ensures forall h :: h in ProjectHistory(project, prefs) ==>
      exists x :: x in prefs && OfProject(project, x) && h == HistoryOf(x)
    decreases |prefs|
  {
    if prefs != [] {
      var init := prefs[..|prefs| - 1];
      ProjectHistoryMembers(project, init);
      assert prefs == init + [prefs[|prefs| - 1]];
      forall h | h in ProjectHistory(project, prefs)
        ensures exists x :: x in prefs && OfProject(project, x) && h == HistoryOf(x)
      {
        if h in ProjectHistory(project, init) {
          var x :| x in init && OfProject(project, x) && h == HistoryOf(x);
          assert x in prefs;
        }
      }
    }
  }

  /**
   * `get_evolution_history`: the entries of the project's active
   * preferences, newest first; every such preference has its entry, and
   * every entry is that of an active row of the project.
   */
  method GetEvolutionHistory(table: PreferenceTable, project: string) returns (r: seq<HistoryEntry>)
    requires table.Valid()
    ensures r == SortDesc(ProjectHistory(project, table.GetPreferences(DefaultQuery)), CreatedAt)
    ensures SortedDesc(r, CreatedAt)
    ensures forall x :: x in table.rows && x.pref.isActive && OfProject(project, x) ==> HistoryOf(x) in r
    ensures forall h :: h in r ==>
      h.id < |table.rows| && h == HistoryOf(table.rows[h.id]) &&
      table.rows[h.id].pref.isActive && OfProject(project, table.rows[h.id])
  {
    var prefs := table.GetPreferences(DefaultQuery);
    var history: seq<HistoryEntry> := [];
    for i := 0 to |prefs|
      invariant history == ProjectHistory(project, prefs[..i])
    {
      assert prefs[..i + 1][..i] == prefs[..i];
      if OfProject(project, prefs[i]) {
        history := history + [HistoryOf(prefs[i])];
      }
    }
    assert prefs[..|prefs|] == prefs;
    ProjectHistoryMembers(project, prefs);
    SortDescFacts(history, CreatedAt);
    SortDescMembers(history, CreatedAt);
    r := SortDesc(history, CreatedAt);
    forall h | h in r
      ensures h.id < |table.rows| && h == HistoryOf(table.rows[h.id])
      ensures table.rows[h.id].pref.isActive && OfProject(project, table.rows[h.id])
    {
      var x :| x in prefs && OfProject(project, x) && h == HistoryOf(x);
      var i :| 0 <= i < |table.rows| && table.rows[i] == x;
    }
  }

  // ---------------------------------------------------------------------------
  // Personalized system prompt

  const ProfileHeader := "## ユーザープロファイル\nこのユーザーには以下の好みがあります：\n"

  function ProfileLine(e: ProfileEntry): string {
    "- " + e.description + "\n"
  }

  /** The profile lines, in order. */
  function ProfileLines(es: seq<ProfileEntry>): string
    decreases |es|
  {
    if es == [] then "" else ProfileLines(es[..|es| - 1]) + ProfileLine(es[|es| - 1])
  }

  /** Each entry's line occurs in the profile lines. */
  lemma {:induction false} ProfileLinesHave(es: seq<ProfileEntry>, k: nat) returns (i: nat)
    requires k < |es|
    ensures OccursAt(ProfileLines(es), ProfileLine(es[k]), i)
    decreases |es|
  {
    var init := es[..|es| - 1];
    if k == |es| - 1 {
      OccursMiddle(ProfileLines(init), ProfileLine(es[k]), "");
      assert ProfileLines(init) + ProfileLine(es[k]) + "" == ProfileLines(es);
      i := |ProfileLines(init)|;
    } else {
      i := ProfileLinesHave(init, k);
      assert init[k] == es[k];
      OccursExtend(ProfileLines(init), ProfileLine(es[|es| - 1]), ProfileLine(es[k]), i);
    }
  }

  /** The profile's `high_confidence` list. */
  function HighEntries(table: PreferenceTable): seq<ProfileEntry>
    reads table
  {
    Entries(Keep(table.GetPreferences(PrefQuery(None, None, None, 0.5, true)), IsHigh))
  }

  /** The system prompt as it is returned: unchanged without high-confidence entries, else with the first ten of them. */
  function Personalized(base: string, high: seq<ProfileEntry>): string {
    if high == [] then base else base + "\n\n" + ProfileHeader + ProfileLines(Prefix(high, 10))
  }

  /**
   * `create_personalized_system_prompt`: the base prompt, followed, when the
   * profile has preferences applied silently, by the profile header and one
   * line for each of the first ten.
   */
  method CreatePersonalizedSystemPrompt(table: PreferenceTable, base: string, project: Option<string>) returns (r: string)
    ensures r == Personalized(base, HighEntries(table))
  {
    var profile := table.GetPreferenceProfile();
    var high := profile.highConfidence;
    if high == [] {
      return base;
    }
    var section := ProfileSection(Prefix(high, 10));
    r := base + "\n\n" + section;
  }

  /**
   * What the personalized prompt says about the table: it starts with the
   * base prompt; it is the base prompt exactly when no active preference
   * reaches 0.85; and it holds the line of each of the first ten of those.
   */
  lemma PersonalizedOfTable(table: PreferenceTable, base: string)
    ensures StartsWith(Personalized(base, HighEntries(table)), base)
    ensures Personalized(base, HighEntries(table)) == base <==>
      forall x :: x in table.rows && x.pref.isActive ==> !AutoApplied(x.pref.confidence)
    ensures forall k :: 0 <= k < |HighEntries(table)| && k < 10 ==>
      Contains(Personalized(base, HighEntries(table)), ProfileLine(HighEntries(table)[k]))
  {
    PersonalizedFacts(base, HighEntries(table));
    NoHighEntries(table);
  }

  /** The loop that writes the profile section, one line per entry. */
  method ProfileSection(shown: seq<ProfileEntry>) returns (section: string)
    ensures section == ProfileHeader + ProfileLines(shown)
  {
    section := ProfileHeader;
    for i := 0 to |shown|
      invariant section == ProfileHeader + ProfileLines(shown[..i])
    {
      assert shown[..i + 1][..i] == shown[..i];
      section := section + ProfileLine(shown[i]);
    }
    assert shown[..|shown|] == shown;
  }

  /**
   * The personalized prompt starts with the base prompt, is the base prompt
   * exactly when there is no entry, and holds the line of each of the first
   * ten entries.
   */
  lemma PersonalizedFacts(base: string, high: seq<ProfileEntry>)
    ensures StartsWith(Personalized(base, high), base)
    ensures Personalized(base, high) == base <==> high == []
    ensures forall k :: 0 <= k < |high| && k < 10 ==> Contains(Personalized(base, high), ProfileLine(high[k]))
  {
    var r := Personalized(base, high);
    assert r[..|base|] == base;
    if high != [] {
      assert |r| > |base|;
    }
    forall k | 0 <= k < |high| && k < 10 ensures Contains(r, ProfileLine(high[k])) {
      var shown := Prefix(high, 10);
      var head := base + "\n\n" + ProfileHeader;
      var i := ProfileLinesHave(shown, k);
      OccursShift(head, ProfileLines(shown), ProfileLine(high[k]), i);
      OccursContains(r, ProfileLine(high[k]), |head| + i);
    }
  }

  /** The profile has no high-confidence entry exactly when no active preference reaches 0.85. */
  lemma NoHighEntries(table: PreferenceTable)
    ensures HighEntries(table) == [] <==>
      forall x :: x in table.rows && x.pref.isActive ==> !AutoApplied(x.pref.confidence)
  {
    var q := PrefQuery(None, None, None, 0.5, true);
    var prefs := table.GetPreferences(q);
    KeepMembers(prefs, IsHigh);
    if Keep(prefs, IsHigh) == [] {
      forall x | x in table.rows && x.pref.isActive ensures !AutoApplied(x.pref.confidence) {
        assert AutoApplied(x.pref.confidence) ==> Selects(q, x) && x in prefs;
      }
    } else {
      assert Keep(prefs, IsHigh)[0] in Keep(prefs, IsHigh);
    }
  }
}
