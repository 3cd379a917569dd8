/**
 * The records of the video pipeline: the project life-cycle states, the
 * section kinds, the script a project is built from, the stored section row,
 * and the bounds the create and update requests put on their fields.
 */
module Schema {
  import opened Wrappers

  /** Where a project stands in the four-stage pipeline. */
  datatype ProjectState = Init | ScriptDone | VisualsDone | NarrationDone | Composed

  function StateName(s: ProjectState): string {
    match s
    case Init => "init"
    case ScriptDone => "script_done"
    case VisualsDone => "visuals_done"
    case NarrationDone => "narration_done"
    case Composed => "composed"
  }

  /** `ProjectState(name)`: the state with that value, if any. */
  function ParseState(name: string): (r: Option<ProjectState>)
    ensures r.Some? ==> StateName(r.value) == name
  {
    if name == "init" then Some(Init)
    else if name == "script_done" then Some(ScriptDone)
    else if name == "visuals_done" then Some(VisualsDone)
    else if name == "narration_done" then Some(NarrationDone)
    else if name == "composed" then Some(Composed)
    else None
  }

  /** The state names are exactly the five values, and each names one state. */
  lemma StateNames(s: ProjectState, name: string)
    ensures ParseState(StateName(s)) == Some(s)
    ensures ParseState(name).Some? <==>
      name in {"init", "script_done", "visuals_done", "narration_done", "composed"}
  {
  }

  /** The kinds of section a script may contain. */
  datatype SectionType = Title | Slide | Code | CodeTyping | Diagram | Summary

  function TypeName(t: SectionType): string {
    match t
    case Title => "title"
    case Slide => "slide"
    case Code => "code"
    case CodeTyping => "code_typing"
    case Diagram => "diagram"
    case Summary => "summary"
  }

  /** `SectionType(name)`: the kind with that value, if any. */
  function ParseType(name: string): (r: Option<SectionType>)
    ensures r.Some? ==> TypeName(r.value) == name
  {
    if name == "title" then Some(Title)
    else if name == "slide" then Some(Slide)
    else if name == "code" then Some(Code)
    else if name == "code_typing" then Some(CodeTyping)
    else if name == "diagram" then Some(Diagram)
    else if name == "summary" then Some(Summary)
    else None
  }

  /** The type names are exactly the six values, and each names one kind. */
  lemma TypeNames(t: SectionType, name: string)
    ensures ParseType(TypeName(t)) == Some(t)
    ensures ParseType(name).Some? <==>
      name in {"title", "slide", "code", "code_typing", "diagram", "summary"}
  {
  }

  /**
   * A value of a section's `visual_spec` dictionary: a string, or a list of
   * strings (bullets, points).
   */
  datatype SpecValue = Str(text: string) | Strs(items: seq<string>)

  type VisualSpec = map<string, SpecValue>

  /**
   * `spec.get(key, default)` for a string field; a list stored there is
   * read as missing.
   */
  function TextField(spec: VisualSpec, key: string, default: string): (text: string)
    ensures key !in spec ==> text == default
    ensures key in spec && spec[key].Str? ==> text == spec[key].text
  {
    if key in spec && spec[key].Str? then spec[key].text else default
  }

  /** Iterating a string: its characters, one string each. */
  function Chars(s: string): (cs: seq<string>)
    ensures |cs| == |s| && forall k :: 0 <= k < |s| ==> cs[k] == [s[k]]
  {
    seq(|s|, k requires 0 <= k < |s| => [s[k]])
  }

  /**
   * Iterating `spec.get(key, [])`: the list's items, or the characters of a
   * string stored there.
   */
  function ListField(spec: VisualSpec, key: string): (items: seq<string>)
    ensures key !in spec ==> items == []
    ensures key in spec && spec[key].Strs? ==> items == spec[key].items
    ensures key in spec && spec[key].Str? ==> |items| == |spec[key].text|
  {
    if key !in spec then []
    else match spec[key]
      case Strs(items) => items
      case Str(text) => Chars(text)
  }

  /** One entry of a script's "sections" list; every key may be missing. */
  datatype ScriptEntry = ScriptEntry(
    kind: Option<string>,
    duration: Option<real>,
    narration: Option<string>,
    visualSpec: Option<VisualSpec>)

  /** The script object stored on a project. */
  datatype Script = Script(
    title: Option<string>,
    description: Option<string>,
    sections: Option<seq<ScriptEntry>>)
  {
    /** `script.get("sections", [])`. */
    function Entries(): seq<ScriptEntry> {
      if sections.Some? then sections.value else []
    }
  }

  type ProjectId = string
  type SectionId = nat

  /** A row of the projects table. */
  datatype Project = Project(
    id: ProjectId,
    theme: string,
    state: ProjectState,
    script: Option<Script>,
    durationTarget: Option<real>)

  /** A row of the sections table. */
  datatype Section = Section(
    id: SectionId,
    projectId: ProjectId,
    sectionIndex: nat,
    kind: SectionType,
    duration: Option<real>,
    narration: Option<string>,
    visualSpec: Option<VisualSpec>,
    slideImagePath: Option<string>,
    narrationAudioPath: Option<string>,
    animationVideoPath: Option<string>,
    generationPrompt: Option<string>,
    contentHash: Option<string>)

  /** The fields a new section row is inserted with; the store assigns the id. */
  datatype SectionDraft = SectionDraft(
    projectId: ProjectId,
    sectionIndex: nat,
    kind: SectionType,
    duration: Option<real>,
    narration: Option<string>,
    visualSpec: Option<VisualSpec>)

  /** The row a draft becomes: the derived artifact fields and the content hash start out unset. */
  function NewSection(id: SectionId, d: SectionDraft): (s: Section)
    ensures s.id == id && s.projectId == d.projectId && s.sectionIndex == d.sectionIndex
    ensures s.kind == d.kind && s.duration == d.duration && s.narration == d.narration
    ensures s.visualSpec == d.visualSpec
    ensures s.slideImagePath.None? && s.narrationAudioPath.None? && s.animationVideoPath.None?
    ensures s.generationPrompt.None? && s.contentHash.None?
  {
    Section(id, d.projectId, d.sectionIndex, d.kind, d.duration, d.narration, d.visualSpec,
      None, None, None, None, None)
  }

  // ---------------------------------------------------------------------------
  // Request validation

  datatype FieldError = ThemeLength | DurationRange

  predicate ThemeOk(theme: string) {
    1 <= |theme| <= 500
  }

  predicate DurationOk(d: Option<real>) {
    d.None? || 30.0 <= d.value <= 3600.0
  }

  /** A project-creation request. */
  datatype ProjectCreate = ProjectCreate(theme: string, durationTarget: Option<real>)

  /** Field validation of a creation request: the theme first, then the target duration. */
  function ValidateCreate(theme: string, durationTarget: Option<real>): (r: Result<ProjectCreate, FieldError>)
    ensures r.Ok? <==> ThemeOk(theme) && DurationOk(durationTarget)
    ensures r.Ok? ==> r.value == ProjectCreate(theme, durationTarget)
    ensures !ThemeOk(theme) ==> r == Err(ThemeLength)
  {
    if !ThemeOk(theme) then Err(ThemeLength)
    else if !DurationOk(durationTarget) then Err(DurationRange)
    else Ok(ProjectCreate(theme, durationTarget))
  }

  /** A project-update request: every field optional. */
  datatype ProjectUpdate = ProjectUpdate(
    theme: Option<string>,
    state: Option<ProjectState>,
    script: Option<Script>,
    durationTarget: Option<real>)

  /** Field validation of an update request: the creation bounds, applied only to fields that are present. */
  function ValidateUpdate(u: ProjectUpdate): (r: Result<ProjectUpdate, FieldError>)
    ensures r.Ok? <==> (u.theme.None? || ThemeOk(u.theme.value)) && DurationOk(u.durationTarget)
    ensures r.Ok? ==> r.value == u
  {
    if u.theme.Some? && !ThemeOk(u.theme.value) then Err(ThemeLength)
    else if !DurationOk(u.durationTarget) then Err(DurationRange)
    else Ok(u)
  }

  /** The empty theme is refused; a ten-second target is refused; a 300-second target is accepted. */
  lemma CreateExamples()
    ensures ValidateCreate("", None) == Err(ThemeLength)
    ensures ValidateCreate("Python入門", Some(10.0)) == Err(DurationRange)
    ensures ValidateCreate("Python入門", Some(300.0)).Ok?
    ensures ValidateCreate("Python入門", None).Ok?
    ensures ValidateUpdate(ProjectUpdate(None, None, None, None)).Ok?
  {
  }
}
