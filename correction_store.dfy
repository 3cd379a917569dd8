/**
 * The correction log: every edit a user makes to generated content is
 * recorded as an immutable event, and read back filtered, newest first, or
 * counted by stage and by category. Rows are only ever inserted.
 */
module CorrectionStore {
  import opened Wrappers
  import opened Text
  import opened Counting
  import opened Seqs

  /** What the user changed, where, and why. */
  datatype CorrectionEvent = CorrectionEvent(
    projectId: string,
    sectionId: Option<string>,
    stage: string,        // script / narration / image / animation / composition
    category: string,     // style / structural / content / technical
    fieldPath: string,
    priorValue: Option<string>,
    newValue: Option<string>,
    originalPrompt: Option<string>,
    userFeedback: Option<string>,
    originalImagePath: Option<string>,
    editedImagePath: Option<string>,
    visualDiffDescription: Option<string>)

  /**
   * A stored row. `id` is the row's place in insertion order; it stands for
   * both the generated key and `created_at`, so a larger id is a newer row.
   */
  datatype Correction = Correction(id: nat, event: CorrectionEvent)

  /** The optional filters of `get_corrections`. */
  datatype Filter = Filter(
    projectId: Option<string>, sectionId: Option<string>,
    stage: Option<string>, category: Option<string>)

  const NoFilter := Filter(None, None, None, None)

  /** The row satisfies every filter that takes effect: those that are truthy. */
  predicate Matches(f: Filter, c: Correction) {
    && (Truthy(f.projectId) ==> c.event.projectId == f.projectId.value)
    && (Truthy(f.sectionId) ==> c.event.sectionId == f.sectionId)
    && (Truthy(f.stage) ==> c.event.stage == f.stage.value)
    && (Truthy(f.category) ==> c.event.category == f.category.value)
  }

  predicate Increasing(rows: seq<Correction>) {
    forall i, j :: 0 <= i < j < |rows| ==> rows[i].id < rows[j].id
  }

  predicate Decreasing(rows: seq<Correction>) {
    forall i, j :: 0 <= i < j < |rows| ==> rows[i].id > rows[j].id
  }

  /** The rows that match, in log order. */
  function Filtered(rows: seq<Correction>, f: Filter): (r: seq<Correction>)
    ensures |r| <= |rows|
    ensures forall k :: 0 <= k < |r| ==> Matches(f, r[k])
  {
    Keep(rows, c => Matches(f, c))
  }

  /** Filtering keeps exactly the matching rows, in the log's order. */
  lemma FilteredFacts(rows: seq<Correction>, f: Filter)
    ensures forall c :: c in Filtered(rows, f) <==> c in rows && Matches(f, c)
    ensures Increasing(rows) ==> Increasing(Filtered(rows, f))
  {
    KeepMembers(rows, c => Matches(f, c));
    if Increasing(rows) {
      KeepIncreasing(rows, c => Matches(f, c), (c: Correction) => c.id);
    }
  }

  /** `order("created_at", desc=True).limit(limit)` over the rows that match. */
  function NewestFirst(rows: seq<Correction>, f: Filter, limit: nat): seq<Correction> {
    var newest := Reverse(Filtered(rows, f));
    Prefix(newest, limit)
  }

  /** The query returns only matching rows of the log, no more than the limit. */
  lemma NewestFirstSound(rows: seq<Correction>, f: Filter, limit: nat)
    ensures |NewestFirst(rows, f, limit)| <= limit
    ensures forall k :: 0 <= k < |NewestFirst(rows, f, limit)| ==>
      Matches(f, NewestFirst(rows, f, limit)[k]) && NewestFirst(rows, f, limit)[k] in rows
  {
    var m := Filtered(rows, f);
    FilteredFacts(rows, f);
    forall k | 0 <= k < |NewestFirst(rows, f, limit)|
      ensures NewestFirst(rows, f, limit)[k] == m[|m| - 1 - k]
    {
    }
  }

  /** The query returns the newest rows first. */
  lemma NewestFirstOrder(rows: seq<Correction>, f: Filter, limit: nat)
    requires Increasing(rows)
    ensures Decreasing(NewestFirst(rows, f, limit))
  {
    var m := Filtered(rows, f);
    FilteredFacts(rows, f);
    var r := NewestFirst(rows, f, limit);
    forall i, j | 0 <= i < j < |r| ensures r[i].id > r[j].id {
      assert r[i] == m[|m| - 1 - i] && r[j] == m[|m| - 1 - j];
    }
  }

  /** A matching row is left out only when the limit is reached, and then it is older than every row returned. */
  lemma NewestFirstComplete(rows: seq<Correction>, f: Filter, limit: nat, c: Correction)
    requires Increasing(rows) && c in rows && Matches(f, c) && c !in NewestFirst(rows, f, limit)
    ensures |NewestFirst(rows, f, limit)| == limit
    ensures forall k :: 0 <= k < |NewestFirst(rows, f, limit)| ==> c.id < NewestFirst(rows, f, limit)[k].id
  {
    var m := Filtered(rows, f);
    var r := NewestFirst(rows, f, limit);
    FilteredFacts(rows, f);
    var i :| 0 <= i < |m| && m[i] == c;
    var p := |m| - 1 - i;
    var newest := Reverse(m);
    assert newest[p] == c;
    assert p >= |r|;
    forall k | 0 <= k < |r| ensures c.id < r[k].id {
      assert r[k] == m[|m| - 1 - k];
    }
  }

  /** What `get_correction_stats` reports. */
  datatype CorrectionStats = CorrectionStats(total: nat, byStage: map<string, nat>, byCategory: map<string, nat>)

  function Stages(rows: seq<Correction>): (r: seq<string>)
    ensures |r| == |rows|
  {
    seq(|rows|, k requires 0 <= k < |rows| => rows[k].event.stage)
  }

  function Categories(rows: seq<Correction>): (r: seq<string>)
    ensures |r| == |rows|
  {
    seq(|rows|, k requires 0 <= k < |rows| => rows[k].event.category)
  }

  /** The `corrections` table. */
  class Store {
    var log: seq<Correction>

    /** Row `i` is the `i`-th insert. */
    predicate Valid()
      reads this
    {
      forall i :: 0 <= i < |log| ==> log[i].id == i
    }

    constructor ()
      ensures Valid() && log == []
    {
      log := [];
    }

    /**
     * `record_correction`: exactly one row is appended, carrying the event's
     * twelve fields; the rows already there stay as they were.
     */
    method RecordCorrection(event: CorrectionEvent) returns (row: Correction)
      requires Valid()
      modifies this
      ensures Valid()
      ensures log == old(log) + [row]
      ensures row.event == event && row.id == |old(log)|
    {
      row := Correction(|log|, event);
      log := log + [row];
    }

    /**
     * `get_corrections`: only rows that satisfy every given filter, newest
     * first, at most `limit` of them; a matching row is missing only when
     * the limit is reached, and then it is older than all that are returned.
     */
    function GetCorrections(f: Filter, limit: nat): (r: seq<Correction>)
      requires Valid()
      reads this
      ensures |r| <= limit
      ensures forall k :: 0 <= k < |r| ==> Matches(f, r[k]) && r[k] in log
      ensures Decreasing(r)
      ensures forall c :: c in log && Matches(f, c) && c !in r ==>
                |r| == limit && forall k :: 0 <= k < |r| ==> c.id < r[k].id
    {
      NewestFirstSound(log, f, limit);
      NewestFirstOrder(log, f, limit);
      forall c | c in log && Matches(f, c) && c !in NewestFirst(log, f, limit)
        ensures |NewestFirst(log, f, limit)| == limit
        ensures forall k :: 0 <= k < |NewestFirst(log, f, limit)| ==> c.id < NewestFirst(log, f, limit)[k].id
      {
        NewestFirstComplete(log, f, limit, c);
      }
      NewestFirst(log, f, limit)
    }

    /** `get_recent_corrections`: the newest `limit` rows of the whole log, newest first. */
    function GetRecentCorrections(limit: nat): (r: seq<Correction>)
      requires Valid()
      reads this
      ensures |r| == Min(limit, |log|)
      ensures forall k :: 0 <= k < |r| ==> r[k] == log[|log| - 1 - k]
    {
      KeepAll(log, c => Matches(NoFilter, c));
      NewestFirst(log, NoFilter, limit)
    }

    /** `get_corrections_by_category`: the category filter alone, with the default limit of 100. */
    function GetCorrectionsByCategory(category: string): (r: seq<Correction>)
      requires Valid()
      reads this
      ensures r == GetCorrections(Filter(None, None, None, Some(category)), 100)
      ensures |r| <= 100
      ensures category != "" ==> forall k :: 0 <= k < |r| ==> r[k].event.category == category
      ensures category == "" ==> r == GetRecentCorrections(100)
    {
      KeepSame(log, c => Matches(Filter(None, None, None, Some("")), c), c => Matches(NoFilter, c));
      GetCorrections(Filter(None, None, None, Some(category)), 100)
    }

    /**
     * `get_correction_stats`: the number of rows and how many there are of
     * each stage and each category; each set of counts adds up to the total.
     */
    method GetCorrectionStats() returns (stats: CorrectionStats)
      ensures stats.total == |log|
      ensures stats.byStage == Tally(Stages(log)) && stats.byCategory == Tally(Categories(log))
      ensures forall s :: s in stats.byStage ==> stats.byStage[s] == multiset(Stages(log))[s]
      ensures forall s :: s in stats.byStage <==> s in Stages(log)
      ensures forall c :: c in stats.byCategory <==> c in Categories(log)
      ensures Sum(stats.byStage) == stats.total && Sum(stats.byCategory) == stats.total
    {
      stats := StatsOf(log);
      StatsFacts(log);
    }
  }

  /** The loop of `get_correction_stats` over the rows. */
  method StatsOf(log: seq<Correction>) returns (stats: CorrectionStats)
    ensures stats == CorrectionStats(|log|, Tally(Stages(log)), Tally(Categories(log)))
  {
    var byStage: map<string, nat> := map[];
    var byCategory: map<string, nat> := map[];
    for i := 0 to |log|
      invariant byStage == Tally(Stages(log)[..i])
      invariant byCategory == Tally(Categories(log)[..i])
    {
      assert Stages(log)[..i + 1][..i] == Stages(log)[..i];
      assert Categories(log)[..i + 1][..i] == Categories(log)[..i];
      byStage := Bump(byStage, log[i].event.stage);
      byCategory := Bump(byCategory, log[i].event.category);
    }
    assert Stages(log)[..|log|] == Stages(log);
    assert Categories(log)[..|log|] == Categories(log);
    stats := CorrectionStats(|log|, byStage, byCategory);
  }

  /** Each count is the number of rows with that key, the keys are those present, and the counts add up to the total. */
  lemma StatsFacts(log: seq<Correction>)
    ensures forall s :: s in Tally(Stages(log)) ==> Tally(Stages(log))[s] == multiset(Stages(log))[s]
    ensures forall s :: s in Tally(Stages(log)) <==> s in Stages(log)
    ensures forall c :: c in Tally(Categories(log)) <==> c in Categories(log)
    ensures Sum(Tally(Stages(log))) == |log| && Sum(Tally(Categories(log))) == |log|
  {
    TallyCounts(Stages(log));
    TallyCounts(Categories(log));
    TallySum(Stages(log));
    TallySum(Categories(log));
  }
}
