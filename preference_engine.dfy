/**
 * The preference engine: preferences are inferred from the correction log
 * (by the language model, or by a fixed mock), stored in the `preferences`
 * table, and read back by scope and by confidence. A confidence of 0.85 or
 * more is applied silently, one from 0.5 up to 0.85 is suggested, and a
 * lower one is only recorded.
 */
module PreferenceEngine {
  import opened Wrappers
  import opened Text
  import opened Seqs
  import opened Sorting
  import opened Counting
  import CorrectionStore

  const SilentApplyThreshold: real := 0.85
  const SuggestThreshold: real := 0.5

  /** The three confidence bands. */
  predicate AutoApplied(c: real) { c >= SilentApplyThreshold }
  predicate Suggested(c: real) { SuggestThreshold <= c < SilentApplyThreshold }
  predicate RecordOnly(c: real) { c < SuggestThreshold }

  /** A preference of the user's, as the engine builds it before it is stored. */
  datatype Preference = Preference(
    description: string,
    category: string,           // style / structural / content / technical
    scope: string,              // global / project / section_type / specific
    sectionType: Option<string>,
    projectId: Option<string>,
    confidence: real,
    sourceCorrections: seq<string>,
    isActive: bool,
    promptVersion: int)

  /** `Preference(description=..., category=...)`: every other field at its declared default. */
  function NewPreference(description: string, category: string): (p: Preference)
    ensures p.description == description && p.category == category
    ensures p.scope == "global" && p.sectionType.None? && p.projectId.None?
    ensures p.confidence == 0.5 && Suggested(p.confidence)
    ensures p.sourceCorrections == [] && p.isActive && p.promptVersion == 1
  {
    Preference(description, category, "global", None, None, 0.5, [], true, 1)
  }

  /**
   * A stored row. `id` is the row's place in insertion order; it stands for
   * both `preference_id` and `created_at`.
   */
  datatype PrefRow = PrefRow(id: nat, pref: Preference)

  function Confidence(r: PrefRow): real { r.pref.confidence }

  // ---------------------------------------------------------------------------
  // Inference

  /** `_mock_infer_preferences`: two section-type style preferences whose confidence grows with the log. */
  function MockInfer(n: nat): (r: seq<Preference>)
    ensures |r| == 2
    ensures r[0].scope == "section_type" && r[0].sectionType == Some("code") && r[0].category == "style"
    ensures r[1].scope == "section_type" && r[1].sectionType == Some("title") && r[1].category == "style"
    ensures r[0].confidence == (if 0.3 + n as real * 0.1 < 0.9 then 0.3 + n as real * 0.1 else 0.9)
    ensures r[1].confidence == r[0].confidence * 0.8
    ensures r[0].sourceCorrections == [] && r[1].sourceCorrections == []
    ensures r[0].isActive && r[1].isActive
  {
    var c := if 0.9 <= 0.3 + n as real * 0.1 then 0.9 else 0.3 + n as real * 0.1;
    [Preference("コードブロックではダークテーマを使用", "style", "section_type", Some("code"), None, c, [], true, 1),
     Preference("タイトルスライドはシンプルなデザインを好む", "style", "section_type", Some("title"), None, c * 0.8, [], true, 1)]
  }

  /**
   * The mock confidences: never above 0.9; with one correction both are
   * only recorded; from two to five the first is suggested; from six on the
   * first is applied silently and the second suggested.
   */
  lemma MockBands(n: nat)
    ensures MockInfer(n)[0].confidence <= 0.9 && MockInfer(n)[1].confidence <= 0.72
    ensures n <= 1 ==> RecordOnly(MockInfer(n)[0].confidence) && RecordOnly(MockInfer(n)[1].confidence)
    ensures 2 <= n <= 5 ==> Suggested(MockInfer(n)[0].confidence)
    ensures n >= 6 ==> AutoApplied(MockInfer(n)[0].confidence) && Suggested(MockInfer(n)[1].confidence)
  {
  }

  /** One entry of the model's JSON reply; a field is `None` when its key is missing. */
  datatype PrefItem = PrefItem(
    description: Option<string>, category: Option<string>, scope: Option<string>,
    sectionType: Option<string>, confidence: Option<real>)

  /**
   * What lies outside the model: the API key, the model's reply to the
   * formatted correction log (`None` for a status other than 200),
   * `json.loads` with the `float` conversions (`None` when either fails;
   * a reply that is JSON but not a list of objects is assumed not to occur),
   * and the `event_id` column of a correction row ("" when absent).
   */
  datatype InferEnv = InferEnv(
    apiKey: string,
    ask: string -> Option<string>,
    decode: string -> Option<seq<PrefItem>>,
    eventId: CorrectionStore.Correction -> string)

  /** The text from the first "[" to the last "]", when the first comes before the last. */
  function BracketSlice(text: string): (r: string)
    ensures |r| <= |text|
  {
    match (Find(text, "["), RFind(text, "]"))
    case (Some(s), Some(e)) => if e + 1 > s then text[s..e + 1] else text
    case _ => text
  }

  /**
   * The slice runs from the first "[" through the last "]"; without both,
   * in that order, the text is kept whole.
   */
  lemma BracketSliceFacts(text: string)
    ensures var r := BracketSlice(text);
      r != text ==> |r| >= 2 && r[0] == '[' && r[|r| - 1] == ']'
    ensures Find(text, "[").None? || RFind(text, "]").None? ==> BracketSlice(text) == text
    ensures (Find(text, "[").Some? && RFind(text, "]").Some? && Find(text, "[").value < RFind(text, "]").value) ==>
      BracketSlice(text) == text[Find(text, "[").value..RFind(text, "]").value + 1]
  {
    match (Find(text, "["), RFind(text, "]"))
    case (Some(s), Some(e)) =>
      if e + 1 > s {
        assert OccursAt(text, "[", s) && OccursAt(text, "]", e);
        assert text[s..s + 1] == "[" && text[e..e + 1] == "]";
        assert text[s] == '[' && text[e] == ']';
      }
    case _ =>
  }

  predicate NonEmpty(s: string) { s != "" }

  /** The `event_id` of every correction, in log order. */
  function EventIds(env: InferEnv, cs: seq<CorrectionStore.Correction>): (all: seq<string>)
    ensures |all| == |cs|
    ensures forall k :: 0 <= k < |cs| ==> all[k] == env.eventId(cs[k])
  {
    seq(|cs|, k requires 0 <= k < |cs| => env.eventId(cs[k]))
  }

  /** `[c.get("event_id", "") for c in corrections if c.get("event_id")][:5]`. */
  function SourceIds(env: InferEnv, corrections: seq<CorrectionStore.Correction>): (ids: seq<string>)
    ensures |ids| <= 5
    ensures forall k :: 0 <= k < |ids| ==> ids[k] != ""
  {
    Prefix(Keep(EventIds(env, corrections), NonEmpty), 5)
  }

  /** How many corrections carry a non-empty `event_id`. */
  function IdCount(env: InferEnv, cs: seq<CorrectionStore.Correction>): nat {
    if cs == [] then 0 else (if env.eventId(cs[0]) != "" then 1 else 0) + IdCount(env, cs[1..])
  }

  /**
   * The first `n` non-empty event ids, scanning the log from its start: a
   * correction with an id takes one of the `n` places, one without is passed
   * over, and the scan stops when the places are taken.
   */
  function FirstIds(env: InferEnv, cs: seq<CorrectionStore.Correction>, n: nat): seq<string> {
    if n == 0 || cs == [] then []
    else if env.eventId(cs[0]) != "" then [env.eventId(cs[0])] + FirstIds(env, cs[1..], n - 1)
    else FirstIds(env, cs[1..], n)
  }

  /** Filtering then cutting to `n` is the scan that stops after `n` ids; the filter keeps one per id. */
  lemma {:induction false} KeptIds(env: InferEnv, cs: seq<CorrectionStore.Correction>, n: nat)
    ensures Prefix(Keep(EventIds(env, cs), NonEmpty), n) == FirstIds(env, cs, n)
    ensures |Keep(EventIds(env, cs), NonEmpty)| == IdCount(env, cs)
  {
    if cs != [] {
      var all := EventIds(env, cs);
      assert all[1..] == EventIds(env, cs[1..]);
      assert all[0] == env.eventId(cs[0]);
      KeptIds(env, cs[1..], if n > 0 && all[0] != "" then n - 1 else n);
      KeptIds(env, cs[1..], n);
    }
  }

  /**
   * The ids a preference cites: the first five non-empty event ids in log
   * order (as many as there are, up to five), each the id of some
   * correction; with five or fewer, every non-empty id is cited.
   */
  lemma SourceIdsFacts(env: InferEnv, cs: seq<CorrectionStore.Correction>)
    ensures SourceIds(env, cs) == FirstIds(env, cs, 5)
    ensures |SourceIds(env, cs)| == Min(5, IdCount(env, cs))
    ensures forall x :: x in SourceIds(env, cs) ==> x != "" && exists j :: 0 <= j < |cs| && env.eventId(cs[j]) == x
    ensures IdCount(env, cs) <= 5 ==>
      forall j :: 0 <= j < |cs| && env.eventId(cs[j]) != "" ==> env.eventId(cs[j]) in SourceIds(env, cs)
  {
    var all := EventIds(env, cs);
    var kept := Keep(all, NonEmpty);
    KeptIds(env, cs, 5);
    KeepMembers(all, NonEmpty);
    forall x | x in SourceIds(env, cs) ensures x != "" && exists j :: 0 <= j < |cs| && env.eventId(cs[j]) == x {
      var i :| 0 <= i < |SourceIds(env, cs)| && SourceIds(env, cs)[i] == x;
      assert x == kept[i] && x in kept;
      var j :| 0 <= j < |all| && all[j] == x;
    }
    if IdCount(env, cs) <= 5 {
      assert SourceIds(env, cs) == kept;
      forall j | 0 <= j < |cs| && env.eventId(cs[j]) != "" ensures env.eventId(cs[j]) in SourceIds(env, cs) {
        assert all[j] in all && NonEmpty(all[j]);
      }
    }
  }

  /** A preference decoded from one entry: missing fields take "", "style", "global" and 0.5. */
  function FromItem(item: PrefItem, sources: seq<string>): (p: Preference)
    ensures p.description == item.description.GetOr("") && p.category == item.category.GetOr("style")
    ensures p.scope == item.scope.GetOr("global") && p.sectionType == item.sectionType
    ensures p.confidence == item.confidence.GetOr(0.5)
    ensures p.sourceCorrections == sources && p.projectId.None? && p.isActive && p.promptVersion == 1
  {
    Preference(item.description.GetOr(""), item.category.GetOr("style"), item.scope.GetOr("global"),
               item.sectionType, None, item.confidence.GetOr(0.5), sources, true, 1)
  }

  /**
   * `_parse_preferences`: the fenced part of the reply, cut to its
   * outermost brackets and stripped, is decoded; one preference per entry,
   * in order, each citing the first five correction ids; the mock result
   * when decoding fails.
   */
  function ParsePreferences(env: InferEnv, text: string, corrections: seq<CorrectionStore.Correction>): (r: seq<Preference>)
    ensures var items := env.decode(Strip(BracketSlice(ExtractFenced(text))));
      && (items.None? ==> r == MockInfer(|corrections|))
      && (items.Some? ==>
            |r| == |items.value| &&
            forall k :: 0 <= k < |r| ==> r[k] == FromItem(items.value[k], SourceIds(env, corrections)))
  {
    match env.decode(Strip(BracketSlice(ExtractFenced(text))))
    case None => MockInfer(|corrections|)
    case Some(items) =>
      var sources := SourceIds(env, corrections);
      seq(|items|, k requires 0 <= k < |items| => FromItem(items[k], sources))
  }

  /** One line of `_format_corrections`. */
  function CorrectionLine(c: CorrectionStore.Correction): (line: string)
    ensures StartsWith(line, "- [" + c.event.stage + "][" + c.event.category + "] " + c.event.fieldPath + ": ")
  {
    var e := c.event;
    var head := "- [" + e.stage + "][" + e.category + "] " + e.fieldPath + ": ";
    var change := if Truthy(e.priorValue) && Truthy(e.newValue)
                  then "'" + e.priorValue.value + "' → '" + e.newValue.value + "'" else "";
    var feedback := if Truthy(e.userFeedback) then " (フィードバック: " + e.userFeedback.value + ")" else "";
    var diff := if Truthy(e.visualDiffDescription) then " (ビジュアル差分: " + e.visualDiffDescription.value + ")" else "";
    assert (head + change + feedback + diff)[..|head|] == head;
    head + change + feedback + diff
  }

  function CorrectionLines(cs: seq<CorrectionStore.Correction>): (lines: seq<string>)
    ensures |lines| == |cs|
  {
    seq(|cs|, k requires 0 <= k < |cs| => CorrectionLine(cs[k]))
  }

  /**
   * `_format_corrections`: one line per correction, in order, joined by
   * newlines; when no line holds a newline, splitting the text at newlines
   * gives the lines back.
   */
  method FormatCorrections(cs: seq<CorrectionStore.Correction>) returns (text: string)
    ensures text == Join("\n", CorrectionLines(cs))
    ensures cs != [] && (forall i, k :: 0 <= i < |cs| && 0 <= k < |CorrectionLine(cs[i])| ==> CorrectionLine(cs[i])[k] != '\n') ==>
      Split(text, "\n") == CorrectionLines(cs)
  {
    var lines: seq<string> := [];
    for i := 0 to |cs|
      invariant lines == CorrectionLines(cs[..i])
    {
      lines := lines + [CorrectionLine(cs[i])];
    }
    assert cs[..|cs|] == cs;
    text := Join("\n", lines);
    if cs != [] && (forall i, k :: 0 <= i < |cs| && 0 <= k < |CorrectionLine(cs[i])| ==> CorrectionLine(cs[i])[k] != '\n') {
      SplitJoinChar(lines, '\n');
    }
  }

  /** What `infer_preferences` returns, case by case. */
  function Inferred(env: InferEnv, corrections: seq<CorrectionStore.Correction>): seq<Preference> {
    if corrections == [] then []
    else if env.apiKey == "" then MockInfer(|corrections|)
    else match env.ask(Join("\n", CorrectionLines(corrections)))
      case None => MockInfer(|corrections|)
      case Some(text) => ParsePreferences(env, text, corrections)
  }

  /**
   * `infer_preferences`: nothing for an empty log; the mock result without
   * an API key or when the model answers with an error; otherwise the
   * parsed reply to the formatted log.
   */
  method InferPreferences(env: InferEnv, corrections: seq<CorrectionStore.Correction>) returns (prefs: seq<Preference>)
    ensures prefs == Inferred(env, corrections)
    ensures corrections == [] ==> prefs == []
    ensures corrections != [] && env.apiKey == "" ==> prefs == MockInfer(|corrections|)
    ensures corrections != [] && env.apiKey != "" ==>
      var reply := env.ask(Join("\n", CorrectionLines(corrections)));
      && (reply.None? ==> prefs == MockInfer(|corrections|))
      && (reply.Some? ==> prefs == ParsePreferences(env, reply.value, corrections))
  {
    if corrections == [] {
      return [];
    }
    if env.apiKey == "" {
      return MockInfer(|corrections|);
    }
    var text := FormatCorrections(corrections);
    var reply := env.ask(text);
    if reply.None? {
      return MockInfer(|corrections|);
    }
    prefs := ParsePreferences(env, reply.value, corrections);
  }

  // ---------------------------------------------------------------------------
  // The `preferences` table

  /** The arguments of `get_preferences`. */
  datatype PrefQuery = PrefQuery(
    scope: Option<string>, category: Option<string>, sectionType: Option<string>,
    minConfidence: real, activeOnly: bool)

  const DefaultQuery := PrefQuery(None, None, None, 0.0, true)

  /** The row passes every filter that takes effect. */
  predicate Selects(q: PrefQuery, r: PrefRow) {
    && (Truthy(q.scope) ==> r.pref.scope == q.scope.value)
    && (Truthy(q.category) ==> r.pref.category == q.category.value)
    && (Truthy(q.sectionType) ==> r.pref.sectionType == q.sectionType)
    && (q.minConfidence > 0.0 ==> r.pref.confidence >= q.minConfidence)
    && (q.activeOnly ==> r.pref.isActive)
  }

  /** The four groups of `get_applicable_preferences`, each active only. */
  predicate InGlobal(r: PrefRow) {
    r.pref.scope == "global" && r.pref.isActive
  }

  predicate InProject(r: PrefRow, project: string) {
    r.pref.scope == "project" && r.pref.projectId == Some(project) && r.pref.isActive
  }

  predicate InType(r: PrefRow, sectionType: string) {
    r.pref.scope == "section_type" && r.pref.sectionType == Some(sectionType) && r.pref.isActive
  }

  predicate InSpecific(r: PrefRow, project: string, sectionType: string) {
    && r.pref.scope == "specific" && r.pref.projectId == Some(project)
    && r.pref.sectionType == Some(sectionType) && r.pref.isActive
  }

  function GlobalGroup(rows: seq<PrefRow>): seq<PrefRow> {
    Keep(rows, InGlobal)
  }

  function ProjectGroup(rows: seq<PrefRow>, project: string): seq<PrefRow> {
    Keep(rows, r => InProject(r, project))
  }

  function TypeGroup(rows: seq<PrefRow>, sectionType: string): seq<PrefRow> {
    Keep(rows, r => InType(r, sectionType))
  }

  function SpecificGroup(rows: seq<PrefRow>, project: string, sectionType: string): seq<PrefRow> {
    Keep(rows, r => InSpecific(r, project, sectionType))
  }

  /** A row applies: it is in the global group, or in a group whose arguments are given. */
  predicate Applicable(r: PrefRow, sectionType: Option<string>, project: Option<string>) {
    || InGlobal(r)
    || (Truthy(project) && InProject(r, project.value))
    || (Truthy(sectionType) && InType(r, sectionType.value))
    || (Truthy(project) && Truthy(sectionType) && InSpecific(r, project.value, sectionType.value))
  }

  /** The groups in the order they are gathered, before sorting. */
  function Gathered(rows: seq<PrefRow>, sectionType: Option<string>, project: Option<string>): seq<PrefRow> {
    GlobalGroup(rows)
    + (if Truthy(project) then ProjectGroup(rows, project.value) else [])
    + (if Truthy(sectionType) then TypeGroup(rows, sectionType.value) else [])
    + (if Truthy(project) && Truthy(sectionType) then SpecificGroup(rows, project.value, sectionType.value) else [])
  }

  /** The gathered rows are exactly the applicable rows of the table. */
  lemma GatheredMembers(rows: seq<PrefRow>, sectionType: Option<string>, project: Option<string>)
    ensures forall x :: x in Gathered(rows, sectionType, project) <==> x in rows && Applicable(x, sectionType, project)
  {
    KeepMembers(rows, InGlobal);
    if Truthy(project) {
      KeepMembers(rows, r => InProject(r, project.value));
    }
    if Truthy(sectionType) {
      KeepMembers(rows, r => InType(r, sectionType.value));
    }
    if Truthy(project) && Truthy(sectionType) {
      KeepMembers(rows, r => InSpecific(r, project.value, sectionType.value));
    }
  }

  function IsHigh(r: PrefRow): bool { AutoApplied(r.pref.confidence) }
  function IsSuggestion(r: PrefRow): bool { Suggested(r.pref.confidence) }

  /** An entry of the profile's `high_confidence` or `suggestions` list. */
  datatype ProfileEntry = ProfileEntry(id: nat, description: string, confidence: real)

  function Entry(r: PrefRow): ProfileEntry {
    ProfileEntry(r.id, r.pref.description, r.pref.confidence)
  }

  function Entries(rows: seq<PrefRow>): (es: seq<ProfileEntry>)
    ensures |es| == |rows|
    ensures forall k :: 0 <= k < |rows| ==> es[k].confidence == rows[k].pref.confidence
  {
    seq(|rows|, k requires 0 <= k < |rows| => Entry(rows[k]))
  }

  /** What `get_preference_profile` reports. */
  datatype Profile = Profile(
    total: nat, byCategory: map<string, nat>, byScope: map<string, nat>,
    highConfidence: seq<ProfileEntry>, suggestions: seq<ProfileEntry>)

  function PrefCategories(rows: seq<PrefRow>): (r: seq<string>)
    ensures |r| == |rows|
  {
    seq(|rows|, k requires 0 <= k < |rows| => rows[k].pref.category)
  }

  function PrefScopes(rows: seq<PrefRow>): (r: seq<string>)
    ensures |r| == |rows|
  {
    seq(|rows|, k requires 0 <= k < |rows| => rows[k].pref.scope)
  }

  /** One step of the profile loop: the counts and the two lists grow by the next preference. */
  lemma ProfileStep(prefs: seq<PrefRow>, i: nat)
    requires i < |prefs|
    ensures PrefCategories(prefs)[..i + 1] == PrefCategories(prefs)[..i] + [prefs[i].pref.category]
    ensures PrefScopes(prefs)[..i + 1] == PrefScopes(prefs)[..i] + [prefs[i].pref.scope]
    ensures Entries(Keep(prefs[..i + 1], IsHigh)) ==
      Entries(Keep(prefs[..i], IsHigh)) + (if IsHigh(prefs[i]) then [Entry(prefs[i])] else [])
    ensures Entries(Keep(prefs[..i + 1], IsSuggestion)) ==
      Entries(Keep(prefs[..i], IsSuggestion)) + (if IsSuggestion(prefs[i]) then [Entry(prefs[i])] else [])
  {
    assert prefs[..i + 1] == prefs[..i] + [prefs[i]];
    KeepAppend(prefs[..i], [prefs[i]], IsHigh);
    KeepAppend(prefs[..i], [prefs[i]], IsSuggestion);
  }

  /** A value of the partial-update dictionary. */
  datatype UpdateValue = StrValue(s: string) | RealValue(x: real) | BoolValue(b: bool)

  /** The row after `update(updates)`: each of description, confidence and is_active that is given. */
  function ApplyUpdates(p: Preference, updates: map<string, UpdateValue>): (q: Preference)
    ensures q.(description := p.description, confidence := p.confidence, isActive := p.isActive) == p
    ensures "description" in updates && updates["description"].StrValue? ==> q.description == updates["description"].s
    ensures "confidence" in updates && updates["confidence"].RealValue? ==> q.confidence == updates["confidence"].x
    ensures "is_active" in updates && updates["is_active"].BoolValue? ==> q.isActive == updates["is_active"].b
    ensures updates == map[] ==> q == p
  {
    var d := if "description" in updates && updates["description"].StrValue? then updates["description"].s else p.description;
    var c := if "confidence" in updates && updates["confidence"].RealValue? then updates["confidence"].x else p.confidence;
    var a := if "is_active" in updates && updates["is_active"].BoolValue? then updates["is_active"].b else p.isActive;
    p.(description := d, confidence := c, isActive := a)
  }

  class PreferenceTable {
    var rows: seq<PrefRow>

    /** Row `i` is the `i`-th insert. */
    predicate Valid()
      reads this
    {
      forall i :: 0 <= i < |rows| ==> rows[i].id == i
    }

    constructor ()
      ensures Valid() && rows == []
    {
      rows := [];
    }

    /** `save_preference`: one row is appended, carrying the preference; returns it. */
    method SavePreference(p: Preference) returns (row: PrefRow)
      requires Valid()
      modifies this
      ensures Valid()
      ensures rows == old(rows) + [row] && row == PrefRow(|old(rows)|, p)
    {
      row := PrefRow(|rows|, p);
      rows := rows + [row];
    }

    /**
     * `get_preferences`: the rows passing every filter given, by
     * non-increasing confidence, rows of equal confidence in table order.
     */
    function GetPreferences(q: PrefQuery): (r: seq<PrefRow>)
      reads this
      ensures SortedDesc(r, Confidence)
      ensures forall x :: x in r <==> x in rows && Selects(q, x)
      ensures multiset(r) == multiset(Keep(rows, x => Selects(q, x)))
    {
      SortDescFacts(Keep(rows, x => Selects(q, x)), Confidence);
      KeepMembers(rows, x => Selects(q, x));
      SortDescMembers(Keep(rows, x => Selects(q, x)), Confidence);
      SortDesc(Keep(rows, x => Selects(q, x)), Confidence)
    }

    /**
     * `get_applicable_preferences`: the active global preferences, those of
     * the project and of the section type when given, and the specific ones
     * when both are; sorted by non-increasing confidence, stably, so that
     * equal confidences keep the group order.
     */
    method GetApplicablePreferences(sectionType: Option<string>, project: Option<string>) returns (r: seq<PrefRow>)
      ensures r == SortDesc(Gathered(rows, sectionType, project), Confidence)
      ensures SortedDesc(r, Confidence)
      ensures forall x :: x in r <==> x in rows && Applicable(x, sectionType, project)
      ensures forall x :: x in r ==> x.pref.isActive
      ensures forall c :: WithKey(r, Confidence, c) == WithKey(Gathered(rows, sectionType, project), Confidence, c)
    {
      var all := GlobalGroup(rows);
      if Truthy(project) {
        all := all + ProjectGroup(rows, project.value);
      }
      if Truthy(sectionType) {
        all := all + TypeGroup(rows, sectionType.value);
      }
      if Truthy(project) && Truthy(sectionType) {
        all := all + SpecificGroup(rows, project.value, sectionType.value);
      }
      assert all == Gathered(rows, sectionType, project);
      SortDescFacts(all, Confidence);
      GatheredMembers(rows, sectionType, project);
      SortDescMembers(all, Confidence);
      r := SortDesc(all, Confidence);
    }

    /**
     * `update_preference`: the row with the id takes the given fields and
     * is returned; an unknown id changes nothing and returns nothing.
     */
    method UpdatePreference(id: nat, updates: map<string, UpdateValue>) returns (r: Option<PrefRow>)
      requires Valid()
      modifies this
      ensures Valid()
      ensures id < |old(rows)| ==>
        rows == old(rows)[id := PrefRow(id, ApplyUpdates(old(rows)[id].pref, updates))] && r == Some(rows[id])
      ensures id >= |old(rows)| ==> rows == old(rows) && r.None?
    {
      if id < |rows| {
        rows := rows[id := PrefRow(id, ApplyUpdates(rows[id].pref, updates))];
        r := Some(rows[id]);
      } else {
        r := None;
      }
    }

    /**
     * `deactivate_preference`: the row with the id becomes inactive, so no
     * active-only query returns it; true iff there was such a row.
     */
    method DeactivatePreference(id: nat) returns (ok: bool)
      requires Valid()
      modifies this
      ensures Valid()
      ensures ok <==> id < |old(rows)|
      ensures ok ==> rows == old(rows)[id := PrefRow(id, old(rows)[id].pref.(isActive := false))]
      ensures !ok ==> rows == old(rows)
      ensures ok ==> forall x :: x in GetPreferences(DefaultQuery) ==> x.id != id
    {
      ok := id < |rows|;
      if ok {
        rows := rows[id := PrefRow(id, rows[id].pref.(isActive := false))];
        assert GetPreferences(DefaultQuery) == GetPreferences(DefaultQuery);
      }
    }

    /**
     * `get_preference_profile`: over the active preferences of confidence
     * at least 0.5, their number, the counts by category and by scope (each
     * adding up to that number), and the silently applied and the suggested
     * ones, which together are all of them.
     */
    method GetPreferenceProfile() returns (profile: Profile)
      ensures var prefs := GetPreferences(PrefQuery(None, None, None, 0.5, true));
        && profile.total == |prefs|
        && profile.byCategory == Tally(PrefCategories(prefs))
        && profile.byScope == Tally(PrefScopes(prefs))
        && profile.highConfidence == Entries(Keep(prefs, IsHigh))
        && profile.suggestions == Entries(Keep(prefs, IsSuggestion))
      ensures Sum(profile.byCategory) == profile.total && Sum(profile.byScope) == profile.total
      ensures |profile.highConfidence| + |profile.suggestions| == profile.total
      ensures forall k :: 0 <= k < |profile.highConfidence| ==> AutoApplied(profile.highConfidence[k].confidence)
      ensures forall k :: 0 <= k < |profile.suggestions| ==> Suggested(profile.suggestions[k].confidence)
    {
      var prefs := GetPreferences(PrefQuery(None, None, None, 0.5, true));
      profile := ProfileOf(prefs);
      ProfileBands(prefs);
    }
  }

  /** The loop of `get_preference_profile` over the rows it selected. */
  method ProfileOf(prefs: seq<PrefRow>) returns (profile: Profile)
    ensures profile.total == |prefs|
    ensures profile.byCategory == Tally(PrefCategories(prefs))
    ensures profile.byScope == Tally(PrefScopes(prefs))
    ensures profile.highConfidence == Entries(Keep(prefs, IsHigh))
    ensures profile.suggestions == Entries(Keep(prefs, IsSuggestion))
  {
    var byCategory: map<string, nat> := map[];
    var byScope: map<string, nat> := map[];
    var high: seq<ProfileEntry> := [];
    var suggestions: seq<ProfileEntry> := [];
    for i := 0 to |prefs|
      invariant byCategory == Tally(PrefCategories(prefs)[..i])
      invariant byScope == Tally(PrefScopes(prefs)[..i])
      invariant high == Entries(Keep(prefs[..i], IsHigh))
      invariant suggestions == Entries(Keep(prefs[..i], IsSuggestion))
    {
      var pref := prefs[i];
      ProfileStep(prefs, i);
      byCategory := Bump(byCategory, pref.pref.category);
      byScope := Bump(byScope, pref.pref.scope);
      var entry := Entry(pref);
      if pref.pref.confidence >= SilentApplyThreshold {
        high := high + [entry];
      } else if pref.pref.confidence >= SuggestThreshold {
        suggestions := suggestions + [entry];
      }
    }
    assert prefs[..|prefs|] == prefs;
    assert PrefCategories(prefs)[..|prefs|] == PrefCategories(prefs);
    assert PrefScopes(prefs)[..|prefs|] == PrefScopes(prefs);
    profile := Profile(|prefs|, byCategory, byScope, high, suggestions);
  }

  /**
   * Over rows of confidence at least 0.5, the counts add up to the number
   * of rows, and each row is either silently applied or suggested.
   */
  lemma ProfileBands(prefs: seq<PrefRow>)
    requires forall x :: x in prefs ==> x.pref.confidence >= SuggestThreshold
    ensures Sum(Tally(PrefCategories(prefs))) == |prefs| && Sum(Tally(PrefScopes(prefs))) == |prefs|
    ensures |Entries(Keep(prefs, IsHigh))| + |Entries(Keep(prefs, IsSuggestion))| == |prefs|
    ensures forall k :: 0 <= k < |Entries(Keep(prefs, IsHigh))| ==> AutoApplied(Entries(Keep(prefs, IsHigh))[k].confidence)
    ensures forall k :: 0 <= k < |Entries(Keep(prefs, IsSuggestion))| ==> Suggested(Entries(Keep(prefs, IsSuggestion))[k].confidence)
  {
    TallySum(PrefCategories(prefs));
    TallySum(PrefScopes(prefs));
    KeepComplement(prefs, IsHigh, IsSuggestion);
  }

  /** The bands split every confidence three ways, with no overlap. */
  lemma BandsPartition(c: real)
    ensures AutoApplied(c) || Suggested(c) || RecordOnly(c)
    ensures !(AutoApplied(c) && Suggested(c)) && !(AutoApplied(c) && RecordOnly(c)) && !(Suggested(c) && RecordOnly(c))
  {
  }
}
