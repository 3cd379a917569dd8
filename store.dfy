/**
 * The `projects` and `sections` tables the pipeline stages read and write,
 * held in memory. A project's sections are kept as a list in
 * `section_index` order, which is the order every stage selects them in.
 */
module Store {
  import opened Wrappers
  import opened Schema

  /** The column update a stage sends for one section row. */
  datatype Patch =
    | SetSlide(url: string)
    | SetAudio(url: string)
    | SetDuration(seconds: real)
    | SetNarration(text: string)
    | SetSpec(spec: VisualSpec)

  /** A row after the update: only the patched column changes. */
  function ApplyPatch(s: Section, u: Patch): (t: Section)
    ensures t.id == s.id && t.projectId == s.projectId && t.sectionIndex == s.sectionIndex && t.kind == s.kind
    ensures u.SetSlide? ==> t == s.(slideImagePath := Some(u.url))
    ensures u.SetAudio? ==> t == s.(narrationAudioPath := Some(u.url))
    ensures u.SetDuration? ==> t == s.(duration := Some(u.seconds))
    ensures u.SetNarration? ==> t == s.(narration := Some(u.text))
    ensures u.SetSpec? ==> t == s.(visualSpec := Some(u.spec))
  {
    match u
    case SetSlide(url) => s.(slideImagePath := Some(url))
    case SetAudio(url) => s.(narrationAudioPath := Some(url))
    case SetDuration(d) => s.(duration := Some(d))
    case SetNarration(text) => s.(narration := Some(text))
    case SetSpec(spec) => s.(visualSpec := Some(spec))
  }

  /** The rows of project `p`, numbered 0, 1, 2, ... in list order. */
  predicate Indexed(p: ProjectId, secs: seq<Section>) {
    forall k :: 0 <= k < |secs| ==> secs[k].projectId == p && secs[k].sectionIndex == k
  }

  predicate DistinctIds(secs: seq<Section>) {
    forall i, j :: 0 <= i < j < |secs| ==> secs[i].id != secs[j].id
  }

  predicate IdsBelow(secs: seq<Section>, bound: nat) {
    forall k :: 0 <= k < |secs| ==> secs[k].id < bound
  }

  /** `select ... eq("id", id)` within one project's rows: the position of the row with that id. */
  function FindSection(secs: seq<Section>, id: SectionId): (r: Option<nat>)
    ensures r.Some? ==> r.value < |secs| && secs[r.value].id == id
    ensures r.None? ==> forall k :: 0 <= k < |secs| ==> secs[k].id != id
  {
    if secs == [] then None
    else if secs[|secs| - 1].id == id then Some(|secs| - 1)
    else FindSection(secs[..|secs| - 1], id)
  }

  /** The rows a list of drafts becomes when inserted with fresh ids from `first` on. */
  function Inserted(first: nat, drafts: seq<SectionDraft>): (rows: seq<Section>)
    ensures |rows| == |drafts|
    ensures forall k :: 0 <= k < |rows| ==> rows[k] == NewSection(first + k, drafts[k])
  {
    seq(|drafts|, k requires 0 <= k < |drafts| => NewSection(first + k, drafts[k]))
  }

  /** A row written twice holds the second value. */
  lemma RowWrittenTwice(rows: seq<Section>, k: nat, a: Section, b: Section)
    requires k < |rows|
    ensures rows[k := a][k := b] == rows[k := b]
  {
  }

  /** A project's rows written twice hold the second list. */
  lemma ListWrittenTwice(m: map<ProjectId, seq<Section>>, p: ProjectId, a: seq<Section>, b: seq<Section>)
    ensures m[p := a][p := b] == m[p := b]
  {
  }

  class Database {
    var projects: map<ProjectId, Project>
    var sections: map<ProjectId, seq<Section>>
    var nextSectionId: nat

    /**
     * Every project is stored under its own id; every list of sections
     * belongs to a stored project, is numbered 0..n-1, and has distinct ids
     * below the next id to hand out.
     */
    predicate Valid()
      reads this
    {
      && (forall p :: p in projects ==> projects[p].id == p)
      && (forall p :: p in sections ==>
            p in projects && Indexed(p, sections[p]) && DistinctIds(sections[p])
            && IdsBelow(sections[p], nextSectionId))
    }

    constructor ()
      ensures Valid() && projects == map[] && sections == map[] && nextSectionId == 0
    {
      projects := map[];
      sections := map[];
      nextSectionId := 0;
    }

    /** `select * from sections where project_id = p order by section_index`. */
    function SectionsOf(p: ProjectId): seq<Section>
      reads this
    {
      if p in sections then sections[p] else []
    }

    /** `update projects set state = st where id = p`. */
    method SetState(p: ProjectId, st: ProjectState)
      requires Valid() && p in projects
      modifies this
      ensures Valid()
      ensures projects == old(projects)[p := old(projects[p]).(state := st)]
      ensures sections == old(sections) && nextSectionId == old(nextSectionId)
    {
      projects := projects[p := projects[p].(state := st)];
    }

    /** `update projects set script = s [, state = st] where id = p`. */
    method SetScript(p: ProjectId, s: Script, st: ProjectState)
      requires Valid() && p in projects
      modifies this
      ensures Valid()
      ensures projects == old(projects)[p := old(projects[p]).(script := Some(s), state := st)]
      ensures sections == old(sections) && nextSectionId == old(nextSectionId)
    {
      projects := projects[p := projects[p].(script := Some(s), state := st)];
    }

    /**
     * `delete from sections where project_id = p`, then `insert` of the
     * drafts: the project's rows become exactly the drafts, with fresh ids.
     */
    method ReplaceSections(p: ProjectId, drafts: seq<SectionDraft>)
      requires Valid() && p in projects
      requires forall k :: 0 <= k < |drafts| ==> drafts[k].projectId == p && drafts[k].sectionIndex == k
      modifies this
      ensures Valid()
      ensures sections == old(sections)[p := Inserted(old(nextSectionId), drafts)]
      ensures projects == old(projects) && nextSectionId == old(nextSectionId) + |drafts|
    {
      var rows := Inserted(nextSectionId, drafts);
      sections := sections[p := rows];
      nextSectionId := nextSectionId + |drafts|;
      forall q | q in sections && q != p
        ensures IdsBelow(sections[q], nextSectionId)
      {
        assert IdsBelow(old(sections)[q], old(nextSectionId));
      }
    }

    /** `update sections set ... where id = sections[p][k].id`: one row changes, nothing else. */
    method PatchSection(p: ProjectId, k: nat, u: Patch)
      requires Valid() && k < |SectionsOf(p)|
      modifies this
      ensures Valid()
      ensures sections == old(sections)[p := old(sections[p])[k := ApplyPatch(old(sections[p][k]), u)]]
      ensures projects == old(projects) && nextSectionId == old(nextSectionId)
    {
      var row := ApplyPatch(sections[p][k], u);
      sections := sections[p := sections[p][k := row]];
      assert Indexed(p, sections[p]);
    }
  }
}
