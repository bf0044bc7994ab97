/** The work estimation result page: it loads the newest estimate of the
    user's newest project (a built-in sample when there is none), lets the
    user change the hours of a phase, which recomputes the total, and saves
    the adjusted estimate back to `work_estimates`.

    The page's estimate objects are mutable and shared: the adjusted
    estimate starts as the very object of the loaded row, and an adjustment
    copies the breakdown array but not its entries, so it writes the new
    hours into an entry the previous estimate object also holds. */
module WorkEstimationResult {
  import opened Wrappers
  import WorkEstimation

  type Id = string

  /** An element of `breakdown`. */
  class Entry {
    var phase: string
    var hours: int

    constructor (phase: string, hours: int)
      ensures this.phase == phase && this.hours == hours
    {
      this.phase := phase;
      this.hours := hours;
    }
  }

  /** An `estimate` object: its total and its breakdown array. */
  class EstimateData {
    var totalHours: int
    var breakdown: seq<Entry>

    constructor (totalHours: int, breakdown: seq<Entry>)
      ensures this.totalHours == totalHours && this.breakdown == breakdown
    {
      this.totalHours := totalHours;
      this.breakdown := breakdown;
    }
  }

  /** The loaded `work_estimates` row (or the sample standing in for it).
      The page never changes which estimate object it holds. */
  class EstimateRow {
    const id: Id
    const projectId: Id
    const estimate: EstimateData

    constructor (id: Id, projectId: Id, estimate: EstimateData)
      ensures this.id == id && this.projectId == projectId && this.estimate == estimate
    {
      this.id := id;
      this.projectId := projectId;
      this.estimate := estimate;
    }
  }

  /** The `work_estimates` table, as values. */
  class EstimateTable {
    var rows: map<Id, WorkEstimation.Estimate>

    constructor (rows: map<Id, WorkEstimation.Estimate>)
      ensures this.rows == rows
    {
      this.rows := rows;
    }
  }

  /** A stored row as the query returns it. */
  datatype StoredEstimate = StoredEstimate(id: Id, projectId: Id, estimate: WorkEstimation.Estimate)

  const SampleId := "sample-id"
  const SampleProjectId := "sample-project-id"
  const SampleEstimate := WorkEstimation.Estimate(120, [
    WorkEstimation.Phase("要件定義", 30), WorkEstimation.Phase("設計", 40),
    WorkEstimation.Phase("開発", 30), WorkEstimation.Phase("テスト", 20)])
  const UpdateFailed := "工数の更新に失敗しました。"
  const Updated := "工数が更新されました。"

  /** The sample's total is the sum of its breakdown. */
  lemma SampleTotalsItsBreakdown()
    ensures SampleEstimate.totalHours == WorkEstimation.BreakdownHours(SampleEstimate.breakdown) == 30 + 40 + 30 + 20
  {
  }

  /** The phases and hours of the entries, as values. */
  function PhasesOf(b: seq<Entry>): (ps: seq<WorkEstimation.Phase>)
    reads b
    ensures |ps| == |b|
    ensures forall k :: 0 <= k < |b| ==> ps[k] == WorkEstimation.Phase(b[k].phase, b[k].hours)
  {
    seq(|b|, k reads b requires 0 <= k < |b| => WorkEstimation.Phase(b[k].phase, b[k].hours))
  }

  /** The estimate object as a value. */
  function Snapshot(e: EstimateData): WorkEstimation.Estimate
    reads e, e.breakdown
  {
    WorkEstimation.Estimate(e.totalHours, PhasesOf(e.breakdown))
  }

  /** The `reduce` summing the entries' hours. */
  function HoursSum(b: seq<Entry>): int
    reads b
    decreases |b|
  {
    if |b| == 0 then 0 else HoursSum(b[..|b| - 1]) + b[|b| - 1].hours
  }

  /** The sum over the entries is the breakdown sum of their values. */
  lemma {:induction false} HoursSumIsBreakdownHours(b: seq<Entry>)
    ensures HoursSum(b) == WorkEstimation.BreakdownHours(PhasesOf(b))
    decreases |b|
  {
    if |b| > 0 {
      var front := b[..|b| - 1];
      HoursSumIsBreakdownHours(front);
      BreakdownHoursSnoc(PhasesOf(front), WorkEstimation.Phase(b[|b| - 1].phase, b[|b| - 1].hours));
      assert PhasesOf(b) == PhasesOf(front) + [WorkEstimation.Phase(b[|b| - 1].phase, b[|b| - 1].hours)];
    }
  }

  lemma {:induction false} BreakdownHoursSnoc(ps: seq<WorkEstimation.Phase>, p: WorkEstimation.Phase)
    ensures WorkEstimation.BreakdownHours(ps + [p]) == WorkEstimation.BreakdownHours(ps) + p.hours
    decreases |ps|
  {
    if |ps| > 0 {
      assert (ps + [p])[1..] == ps[1..] + [p];
      BreakdownHoursSnoc(ps[1..], p);
    }
  }

  /** No entry object appears twice in a breakdown. */
  predicate Distinct(b: seq<Entry>) {
    forall j, k :: 0 <= j < k < |b| ==> b[j] != b[k]
  }

  /** Fresh objects for a stored estimate. */
  method Build(v: WorkEstimation.Estimate) returns (e: EstimateData)
    ensures fresh(e) && Distinct(e.breakdown)
    ensures forall k :: 0 <= k < |e.breakdown| ==> fresh(e.breakdown[k])
    ensures Snapshot(e) == v
  {
    var entries: seq<Entry> := [];
    var i := 0;
    while i < |v.breakdown|
      invariant 0 <= i <= |v.breakdown|
      invariant |entries| == i && Distinct(entries)
      invariant forall k :: 0 <= k < i ==> fresh(entries[k])
      invariant forall k :: 0 <= k < i ==> WorkEstimation.Phase(entries[k].phase, entries[k].hours) == v.breakdown[k]
    {
      var entry := new Entry(v.breakdown[i].phase, v.breakdown[i].hours);
      entries := entries + [entry];
      i := i + 1;
    }
    e := new EstimateData(v.totalHours, entries);
  }

  /** The `reduce` over the entries. */
  method SumHours(entries: seq<Entry>) returns (total: int)
    ensures total == HoursSum(entries)
  {
    total := 0;
    var i := 0;
    while i < |entries|
      invariant 0 <= i <= |entries|
      invariant total == HoursSum(entries[..i])
    {
      assert entries[..i + 1][..i] == entries[..i];
      total := total + entries[i].hours;
      i := i + 1;
    }
    assert entries[..|entries|] == entries;
  }

  class ResultPage {
    var workEstimation: EstimateRow?
    var adjusted: EstimateData?
    var loading: bool

    /** The page state is either not loaded (both null) or a loaded row and
        an adjusted estimate whose entries are distinct objects. */
    ghost predicate Valid()
      reads this, adjusted
    {
      && (workEstimation == null <==> adjusted == null)
      && (adjusted != null ==> Distinct(adjusted.breakdown))
    }

    constructor ()
      ensures workEstimation == null && adjusted == null && loading
      ensures Valid()
    {
      workEstimation := null;
      adjusted := null;
      loading := true;
    }

    /** The end of `fetchWorkEstimation`: with no project or no estimate of
        it the sample is shown, otherwise the newest estimate; either way
        the adjusted estimate is the row's own estimate object. */
    method Load(project: Option<Id>, latest: Option<StoredEstimate>)
      modifies this
      ensures Valid() && !loading
      ensures workEstimation != null && fresh(workEstimation) && adjusted == workEstimation.estimate
      ensures fresh(adjusted) && forall k :: 0 <= k < |adjusted.breakdown| ==> fresh(adjusted.breakdown[k])
      ensures project.None? || latest.None? ==>
        workEstimation.id == SampleId && workEstimation.projectId == SampleProjectId && Snapshot(adjusted) == SampleEstimate
      ensures project.Some? && latest.Some? ==>
        workEstimation.id == latest.value.id && workEstimation.projectId == latest.value.projectId && Snapshot(adjusted) == latest.value.estimate
    {
      var row: EstimateRow;
      if project.None? || latest.None? {
        var e := Build(SampleEstimate);
        row := new EstimateRow(SampleId, SampleProjectId, e);
      } else {
        var e := Build(latest.value.estimate);
        row := new EstimateRow(latest.value.id, latest.value.projectId, e);
      }
      workEstimation := row;
      adjusted := row.estimate;
      loading := false;
    }

    /** `handleAdjustmentChange`: a new estimate object holding a copy of
        the breakdown array, whose entry `index` gets the new hours, and
        the total recomputed over the entries. */
    method AdjustEntry(index: int, value: int)
      requires Valid() && adjusted != null
      requires 0 <= index < |adjusted.breakdown|
      modifies this, adjusted.breakdown[index]
      ensures Valid() && adjusted != null && fresh(adjusted)
      ensures workEstimation == old(workEstimation) && loading == old(loading)
      ensures adjusted.breakdown == old(adjusted.breakdown)
      ensures adjusted.breakdown[index].hours == value && adjusted.breakdown[index].phase == old(adjusted.breakdown[index].phase)
      ensures forall k :: 0 <= k < |adjusted.breakdown| && k != index ==>
        adjusted.breakdown[k].hours == old(adjusted.breakdown[k].hours) && adjusted.breakdown[k].phase == old(adjusted.breakdown[k].phase)
      ensures adjusted.totalHours == HoursSum(adjusted.breakdown)
      ensures Snapshot(adjusted).totalHours == WorkEstimation.BreakdownHours(Snapshot(adjusted).breakdown)
      // the estimate object shown before sees the new hours but keeps its total
      ensures old(adjusted).breakdown == adjusted.breakdown && old(adjusted).totalHours == old(adjusted.totalHours)
    {
      var entries := adjusted.breakdown;
      entries[index].hours := value;
      var total := SumHours(entries);
      adjusted := new EstimateData(total, entries);
      HoursSumIsBreakdownHours(entries);
    }

    /** `handleSaveAdjustment`: nothing without a loaded row; otherwise the
        update of the row with the loaded id, which changes nothing when no
        row has that id (the sample's), and the alert shown. */
    method Save(table: EstimateTable, error: bool) returns (alert: Option<string>)
      requires Valid()
      modifies table
      ensures workEstimation == null ==> alert.None? && table.rows == old(table.rows)
      ensures workEstimation != null && error ==> alert == Some(UpdateFailed) && table.rows == old(table.rows)
      ensures workEstimation != null && !error ==>
        && alert == Some(Updated)
        && table.rows == (if workEstimation.id in old(table.rows) then old(table.rows)[workEstimation.id := Snapshot(adjusted)] else old(table.rows))
    {
      if workEstimation == null {
        return None;
      }
      if error {
        return Some(UpdateFailed);
      }
      if workEstimation.id in table.rows {
        table.rows := table.rows[workEstimation.id := Snapshot(adjusted)];
      }
      alert := Some(Updated);
    }
  }

  /** After an adjustment the shown total is the breakdown sum, whatever
      the total was before: the sample adjusted to 35 hours of design
      totals 30 + 35 + 30 + 20. */
  method AdjustedSampleTotal() returns (total: int)
    ensures total == 115
  {
    var page := new ResultPage();
    page.Load(None, None);
    var b := page.adjusted.breakdown;
    assert PhasesOf(b) == SampleEstimate.breakdown;
    assert |b| == 4 && b[0].hours == 30 && b[2].hours == 30 && b[3].hours == 20;
    page.AdjustEntry(1, 35);
    assert b[0].hours == 30 && b[1].hours == 35 && b[2].hours == 30 && b[3].hours == 20;
    assert b[..1][..0] == b[..0] && b[..2][..1] == b[..1] && b[..3][..2] == b[..2] && b[..3] == b[..|b| - 1];
    assert HoursSum(b[..0]) == 0;
    assert HoursSum(b[..1]) == 30;
    assert HoursSum(b[..2]) == 65;
    assert HoursSum(b[..3]) == 95;
    total := page.adjusted.totalHours;
  }
}
