/** The position-by-experience route: a fixed grid of three positions by eight experience
    buckets, each cell holding the rounded mean first-component salary of its records. */
module PositionExperience {
  import opened Wrappers
  import opened Seqs
  import opened Numbers
  import opened Records
  import opened SalaryText
  import opened SalaryStats

  /** The route's answer when reading a salary throws. */
  const ProcessError: string := "Veri işlenirken bir hata oluştu"

  /** The three positions of the grid, in output order. */
  const PositionLabels: seq<string> := ["Back-end Developer", "Front-end Developer", "Full Stack Developer"]

  /** One cell: an experience bucket and its rounded mean, `None` for `NaN`. */
  datatype Cell = Cell(experience: string, salary: Option<int>)

  /** One row: a position and its cells. */
  datatype PositionRow = PositionRow(position: string, data: seq<Cell>)

  // ---------------------------------------------------------------------------
  // Filtering

  /** `if (param && param !== "all") data = data.filter(item => item[field] === param)`. */
  function Narrow(data: seq<SalaryEntry>, param: Option<string>, f: Field): (r: seq<SalaryEntry>)
    ensures IsSubsequence(r, data)
    ensures forall x :: x in r <==> x in data && (Unconstrained(param) || FieldOf(x, f) == param)
    ensures |r| == Count(data, NarrowTest(param, f))
  {
    if Truthy(param) && param.value != All then
      FilterKeepsOnlyMatches(data, HasKey(f, param.value));
      Filter(data, HasKey(f, param.value))
    else
      SubsequenceRefl(data);
      FilterAll(data, NarrowTest(param, f));
      data
  }

  /** `filteredData`: the position filter, then the level filter. Unlike the other routes,
      no currency is demanded here. */
  function PositionFilter(q: Query, data: seq<SalaryEntry>): (r: seq<SalaryEntry>)
    ensures IsSubsequence(r, data)
    ensures forall x :: x in r <==> x in data && MatchesParam(q.position, x.position) && MatchesParam(q.level, x.level)
  {
    var byPosition := Narrow(data, q.position, Position);
    var r := Narrow(byPosition, q.level, Level);
    SubsequenceTransitive(r, byPosition, data);
    r
  }

  /** Both parameters as one filter. */
  predicate Matching(q: Query, r: SalaryEntry)
  {
    MatchesParam(q.position, r.position) && MatchesParam(q.level, r.level)
  }

  function MatchingQuery(q: Query): SalaryEntry -> bool
  {
    r => Matching(q, r)
  }

  /** The test one `Narrow` applies. */
  function NarrowTest(param: Option<string>, f: Field): SalaryEntry -> bool
  {
    if Truthy(param) && param.value != All then HasKey(f, param.value) else r => true
  }

  lemma {:induction false} NarrowIsFilter(data: seq<SalaryEntry>, param: Option<string>, f: Field)
    ensures Narrow(data, param, f) == Filter(data, NarrowTest(param, f))
  {
    if !(Truthy(param) && param.value != All) {
      FilterAll(data, NarrowTest(param, f));
    }
  }

  /** The two filters in sequence select what one combined filter selects, in the same order. */
  lemma {:induction false} SequentialFiltersCombine(q: Query, data: seq<SalaryEntry>)
    ensures PositionFilter(q, data) == Filter(data, MatchingQuery(q))
  {
    var p := NarrowTest(q.position, Position);
    var l := NarrowTest(q.level, Level);
    NarrowIsFilter(data, q.position, Position);
    NarrowIsFilter(Filter(data, p), q.level, Level);
    FilterTwice(data, p, l, MatchingQuery(q));
  }

  // ---------------------------------------------------------------------------
  // Cells

  /** The records one cell aggregates. */
  predicate InCell(pos: string, exp: string, r: SalaryEntry)
  {
    r.position == Some(pos) && r.experience == Some(exp) && InLira(r)
  }

  function CellSelection(pos: string, exp: string): SalaryEntry -> bool
  {
    r => InCell(pos, exp, r)
  }

  /** `relevantData`: the filtered records of that position and experience in Turkish Lira. */
  function CellRecords(filtered: seq<SalaryEntry>, pos: string, exp: string): (rs: seq<SalaryEntry>)
    ensures IsSubsequence(rs, filtered)
    ensures forall x :: x in rs <==> x in filtered && x.position == Some(pos) && x.experience == Some(exp) && x.currency == Some(TurkishLira)
    ensures |rs| == Count(filtered, CellSelection(pos, exp))
  {
    FilterKeepsOnlyMatches(filtered, CellSelection(pos, exp));
    Filter(filtered, CellSelection(pos, exp))
  }

  /** `Math.round(sum / relevantData.length)`, 0 for an empty cell; a record without a
      salary throws, and a first component that does not parse makes the cell `NaN`. */
  function CellSalary(filtered: seq<SalaryEntry>, pos: string, exp: string): (r: Result<Option<int>>)
    ensures r.Failure? <==> !AllSalariesPresent(CellRecords(filtered, pos, exp))
    ensures r.Failure? ==> r.error == ProcessError
  {
    var rs := CellRecords(filtered, pos, exp);
    if !AllSalariesPresent(rs) then Failure(ProcessError)
    else Success(MeanOrNaN(Amounts(rs, FirstComponentDigits)))
  }

  /** A cell without records holds 0. */
  lemma {:induction false} EmptyCellIsZero(filtered: seq<SalaryEntry>, pos: string, exp: string)
    requires forall x :: x in filtered ==> !InCell(pos, exp, x)
    ensures CellSalary(filtered, pos, exp) == Success(Some(0))
  {
  }

  /** A cell is `NaN` exactly when its records all have a salary and one of them does not
      parse. */
  lemma {:induction false} CellNaN(filtered: seq<SalaryEntry>, pos: string, exp: string)
    ensures CellSalary(filtered, pos, exp) == Success(None) <==>
      var rs := CellRecords(filtered, pos, exp);
      AllSalariesPresent(rs) && exists i :: 0 <= i < |rs| && FirstComponentDigits(rs[i].salary.value).None?
  {
    var rs := CellRecords(filtered, pos, exp);
    if AllSalariesPresent(rs) {
      MeanOrNaNIsNaN(Amounts(rs, FirstComponentDigits));
      AmountsAll(rs, FirstComponentDigits);
    }
  }

  /** A cell's value lies between the rounded bounds of its records' salaries. */
  lemma {:induction false} CellBetween(filtered: seq<SalaryEntry>, pos: string, exp: string, lo: real, hi: real)
    requires |CellRecords(filtered, pos, exp)| > 0
    requires forall x :: x in CellRecords(filtered, pos, exp) ==>
      x.salary.Some? && FirstComponentDigits(x.salary.value).Some? && lo <= FirstComponentDigits(x.salary.value).value <= hi
    ensures CellSalary(filtered, pos, exp).Success? && CellSalary(filtered, pos, exp).value.Some?
    ensures Round(lo) <= CellSalary(filtered, pos, exp).value.value <= Round(hi)
  {
    var rs := CellRecords(filtered, pos, exp);
    AmountsAll(rs, FirstComponentDigits);
    forall i | 0 <= i < |rs| ensures rs[i].salary.Some? && FirstComponentDigits(rs[i].salary.value).Some?
      && lo <= FirstComponentDigits(rs[i].salary.value).value <= hi
    {
      assert rs[i] in rs;
    }
    MeanOrNaNBetween(Amounts(rs, FirstComponentDigits), lo, hi);
  }

  /** One cell as the route computes it: `reduce` adds the first components to a running
      sum that stays `NaN` once it is `NaN`; reading a missing salary throws. */
  method CellAverage(filtered: seq<SalaryEntry>, pos: string, exp: string) returns (r: Result<Option<int>>)
    ensures r == CellSalary(filtered, pos, exp)
  {
    var rs := CellRecords(filtered, pos, exp);
    var mean := RunningMean(rs, FirstComponentDigits);
    if mean.None? {
      return Failure(ProcessError);
    }
    r := Success(mean.value);
  }

  // ---------------------------------------------------------------------------
  // The grid

  /** The route's per-cell computation over the selected records. */
  function CellOf(filtered: seq<SalaryEntry>): (string, string) -> Result<Option<int>>
  {
    (pos, exp) => CellSalary(filtered, pos, exp)
  }

  /** `experienceLevels.map(...)` for one position: the first failing cell fails the row. */
  function Row(cell: (string, string) -> Result<Option<int>>, pos: string, exps: seq<string>): (r: Result<seq<Cell>>)
    ensures r.Success? <==> forall j :: 0 <= j < |exps| ==> cell(pos, exps[j]).Success?
    ensures r.Success? ==> |r.value| == |exps|
    ensures r.Success? ==> forall j :: 0 <= j < |exps| ==> r.value[j] == Cell(exps[j], cell(pos, exps[j]).value)
    ensures r.Failure? ==> exists j :: 0 <= j < |exps| && cell(pos, exps[j]) == Failure(r.error)
  {
    if |exps| == 0 then Success([])
    else
      match cell(pos, exps[0])
      case Failure(e) => Failure(e)
      case Success(v) =>
        match Row(cell, pos, exps[1..])
        case Failure(e) =>
          assert exists j :: 0 <= j < |exps| - 1 && cell(pos, exps[1..][j]) == Failure(e);
          Failure(e)
        case Success(cells) => Success([Cell(exps[0], v)] + cells)
  }

  /** `positions.map(...)`: one row per position, in order. */
  function Grid(cell: (string, string) -> Result<Option<int>>, positions: seq<string>, exps: seq<string>): (r: Result<seq<PositionRow>>)
    ensures r.Success? <==> forall i :: 0 <= i < |positions| ==> Row(cell, positions[i], exps).Success?
    ensures r.Success? ==> |r.value| == |positions|
    ensures r.Success? ==> forall i :: 0 <= i < |positions| ==>
      r.value[i] == PositionRow(positions[i], Row(cell, positions[i], exps).value)
    ensures r.Failure? ==> exists i :: 0 <= i < |positions| && Row(cell, positions[i], exps) == Failure(r.error)
  {
    if |positions| == 0 then Success([])
    else
      match Row(cell, positions[0], exps)
      case Failure(e) => Failure(e)
      case Success(cells) =>
        match Grid(cell, positions[1..], exps)
        case Failure(e) =>
          assert exists i :: 0 <= i < |positions| - 1 && Row(cell, positions[1..][i], exps) == Failure(e);
          Failure(e)
        case Success(rows) => Success([PositionRow(positions[0], cells)] + rows)
  }

  /** One more experience bucket extends a successful row by its cell. */
  lemma {:induction false} RowSnoc(cell: (string, string) -> Result<Option<int>>, pos: string, exps: seq<string>, j: nat)
    requires j < |exps|
    requires Row(cell, pos, exps[..j]).Success?
    requires cell(pos, exps[j]).Success?
    ensures Row(cell, pos, exps[..j + 1]) == Success(Row(cell, pos, exps[..j]).value + [Cell(exps[j], cell(pos, exps[j]).value)])
  {
    var before := Row(cell, pos, exps[..j]);
    var after := Row(cell, pos, exps[..j + 1]);
    var longer := exps[..j + 1];
    forall k | 0 <= k < j + 1 ensures cell(pos, longer[k]).Success? {
      if k < j {
        assert longer[k] == exps[..j][k];
      }
    }
    assert after.Success?;
    assert after.value == before.value + [Cell(exps[j], cell(pos, exps[j]).value)] by {
      forall k | 0 <= k < j ensures after.value[k] == before.value[k] {
        assert longer[k] == exps[..j][k];
      }
    }
  }

  /** One more position extends a successful grid by its row. */
  lemma {:induction false} GridSnoc(cell: (string, string) -> Result<Option<int>>, positions: seq<string>, exps: seq<string>, i: nat)
    requires i < |positions|
    requires Grid(cell, positions[..i], exps).Success?
    requires Row(cell, positions[i], exps).Success?
    ensures Grid(cell, positions[..i + 1], exps) ==
      Success(Grid(cell, positions[..i], exps).value + [PositionRow(positions[i], Row(cell, positions[i], exps).value)])
  {
    var before := Grid(cell, positions[..i], exps);
    var after := Grid(cell, positions[..i + 1], exps);
    var longer := positions[..i + 1];
    forall k | 0 <= k < i + 1 ensures Row(cell, longer[k], exps).Success? {
      if k < i {
        assert longer[k] == positions[..i][k];
      }
    }
    assert after.Success?;
    assert after.value == before.value + [PositionRow(positions[i], Row(cell, positions[i], exps).value)] by {
      forall k | 0 <= k < i ensures after.value[k] == before.value[k] {
        assert longer[k] == positions[..i][k];
      }
    }
  }

  /** A successful grid holds, at row `i` and column `j`, the cell of `positions[i]` and
      `exps[j]`. */
  lemma {:induction false} GridCells(cell: (string, string) -> Result<Option<int>>, positions: seq<string>, exps: seq<string>)
    requires Grid(cell, positions, exps).Success?
    ensures forall i, j :: 0 <= i < |positions| && 0 <= j < |exps| ==>
      var g := Grid(cell, positions, exps).value;
      g[i].position == positions[i] && |g[i].data| == |exps| && g[i].data[j] == Cell(exps[j], cell(positions[i], exps[j]).value)
  {
    var g := Grid(cell, positions, exps).value;
    forall i, j | 0 <= i < |positions| && 0 <= j < |exps|
      ensures g[i].position == positions[i] && |g[i].data| == |exps|
      ensures g[i].data[j] == Cell(exps[j], cell(positions[i], exps[j]).value)
    {
      assert g[i] == PositionRow(positions[i], Row(cell, positions[i], exps).value);
    }
  }

  /** A grid fails exactly when one of its cells does, with that cell's error. */
  lemma {:induction false} GridFails(cell: (string, string) -> Result<Option<int>>, positions: seq<string>, exps: seq<string>)
    ensures Grid(cell, positions, exps).Failure? <==>
      exists i, j :: 0 <= i < |positions| && 0 <= j < |exps| && cell(positions[i], exps[j]).Failure?
    ensures Grid(cell, positions, exps).Failure? ==>
      exists i, j :: 0 <= i < |positions| && 0 <= j < |exps| && cell(positions[i], exps[j]) == Failure(Grid(cell, positions, exps).error)
  {
    var g := Grid(cell, positions, exps);
    if g.Failure? {
      var i :| 0 <= i < |positions| && Row(cell, positions[i], exps) == Failure(g.error);
      var j :| 0 <= j < |exps| && cell(positions[i], exps[j]) == Failure(g.error);
    }
    if exists i, j :: 0 <= i < |positions| && 0 <= j < |exps| && cell(positions[i], exps[j]).Failure? {
      var i, j :| 0 <= i < |positions| && 0 <= j < |exps| && cell(positions[i], exps[j]).Failure?;
      assert Row(cell, positions[i], exps).Failure?;
    }
  }

  /** A cell fails exactly when one of its records has no salary. */
  lemma {:induction false} CellFails(filtered: seq<SalaryEntry>, pos: string, exp: string)
    ensures CellOf(filtered)(pos, exp).Failure? <==> exists x :: x in filtered && InCell(pos, exp, x) && x.salary.None?
    ensures CellOf(filtered)(pos, exp).Failure? ==> CellOf(filtered)(pos, exp).error == ProcessError
  {
    var rs := CellRecords(filtered, pos, exp);
    if !AllSalariesPresent(rs) {
      var k :| 0 <= k < |rs| && rs[k].salary.None?;
      assert rs[k] in rs;
    }
    if exists x :: x in filtered && InCell(pos, exp, x) && x.salary.None? {
      var x :| x in filtered && InCell(pos, exp, x) && x.salary.None?;
      assert x in rs;
    }
  }

  /** The route: the grid over the three positions and the eight experience buckets. */
  function PositionExperienceSalaries(q: Query, data: seq<SalaryEntry>): (r: Result<seq<PositionRow>>)
    ensures r.Success? ==> |r.value| == |PositionLabels|
  {
    Grid(CellOf(PositionFilter(q, data)), PositionLabels, ExperienceOrder)
  }

  /** A successful answer has one row per position label, each with one cell per
      experience bucket holding that cell's salary. */
  lemma {:induction false} PositionExperienceCells(q: Query, data: seq<SalaryEntry>, i: nat, j: nat)
    requires i < |PositionLabels| && j < |ExperienceOrder|
    requires PositionExperienceSalaries(q, data).Success?
    ensures PositionExperienceSalaries(q, data).value[i].position == PositionLabels[i]
    ensures |PositionExperienceSalaries(q, data).value[i].data| == |ExperienceOrder|
    ensures PositionExperienceSalaries(q, data).value[i].data[j] ==
      Cell(ExperienceOrder[j], CellSalary(PositionFilter(q, data), PositionLabels[i], ExperienceOrder[j]).value)
  {
    GridCells(CellOf(PositionFilter(q, data)), PositionLabels, ExperienceOrder);
  }

  /** The route fails exactly when a selected record that falls in some cell has no salary,
      and then with the route's error message. */
  lemma {:induction false} PositionExperienceFails(q: Query, data: seq<SalaryEntry>)
    ensures PositionExperienceSalaries(q, data).Failure? <==>
      exists x, i, j :: x in PositionFilter(q, data) && 0 <= i < |PositionLabels| && 0 <= j < |ExperienceOrder|
        && InCell(PositionLabels[i], ExperienceOrder[j], x) && x.salary.None?
    ensures PositionExperienceSalaries(q, data).Failure? ==> PositionExperienceSalaries(q, data).error == ProcessError
  {
    var filtered := PositionFilter(q, data);
    var cell := CellOf(filtered);
    GridFails(cell, PositionLabels, ExperienceOrder);
    forall i, j | 0 <= i < |PositionLabels| && 0 <= j < |ExperienceOrder| {
      CellFails(filtered, PositionLabels[i], ExperienceOrder[j]);
    }
  }

  /** A position parameter outside the three labels empties every cell: the route answers a
      grid of zeros. */
  lemma {:induction false} UnlistedPositionGivesZeros(q: Query, data: seq<SalaryEntry>)
    requires Truthy(q.position) && q.position.value != All && q.position.value !in PositionLabels
    ensures PositionExperienceSalaries(q, data).Success?
    ensures forall i, j :: 0 <= i < |PositionLabels| && 0 <= j < |ExperienceOrder| ==>
      PositionExperienceSalaries(q, data).value[i].data[j].salary == Some(0)
  {
    var filtered := PositionFilter(q, data);
    forall i, j | 0 <= i < |PositionLabels| && 0 <= j < |ExperienceOrder|
      ensures CellOf(filtered)(PositionLabels[i], ExperienceOrder[j]) == Success(Some(0))
    {
      forall x | x in filtered ensures !InCell(PositionLabels[i], ExperienceOrder[j], x) {
        assert PositionLabels[i] in PositionLabels;
      }
      EmptyCellIsZero(filtered, PositionLabels[i], ExperienceOrder[j]);
    }
    ConstantGrid(CellOf(filtered), PositionLabels, ExperienceOrder, Some(0));
  }

  /** A grid whose cells all succeed with `v` holds `v` everywhere. */
  lemma {:induction false} ConstantGrid(cell: (string, string) -> Result<Option<int>>, positions: seq<string>, exps: seq<string>, v: Option<int>)
    requires forall i, j :: 0 <= i < |positions| && 0 <= j < |exps| ==> cell(positions[i], exps[j]) == Success(v)
    ensures Grid(cell, positions, exps).Success?
    ensures forall i, j :: 0 <= i < |positions| && 0 <= j < |exps| ==> Grid(cell, positions, exps).value[i].data[j].salary == v
  {
    GridFails(cell, positions, exps);
    GridCells(cell, positions, exps);
  }

  /** `cell` fails only with the error `e`. */
  ghost predicate FailsWith(cell: (string, string) -> Result<Option<int>>, e: string)
  {
    forall pos, exp :: cell(pos, exp).Failure? ==> cell(pos, exp).error == e
  }

  lemma {:induction false} CellOfFailsWith(filtered: seq<SalaryEntry>)
    ensures FailsWith(CellOf(filtered), ProcessError)
  {
  }

  /** A failing cell fails its row, with the one error cells fail with. */
  lemma {:induction false} RowFailure(cell: (string, string) -> Result<Option<int>>, pos: string, exps: seq<string>, j: nat, e: string)
    requires FailsWith(cell, e)
    requires j < |exps| && cell(pos, exps[j]).Failure?
    ensures Row(cell, pos, exps) == Failure(e)
  {
    var r := Row(cell, pos, exps);
    assert r.Failure?;
    var k :| 0 <= k < |exps| && cell(pos, exps[k]) == Failure(r.error);
  }

  /** A failing row fails the grid, with the one error cells fail with. */
  lemma {:induction false} GridFailure(cell: (string, string) -> Result<Option<int>>, positions: seq<string>, exps: seq<string>, i: nat, e: string)
    requires FailsWith(cell, e)
    requires i < |positions| && Row(cell, positions[i], exps).Failure?
    ensures Grid(cell, positions, exps) == Failure(e)
  {
    var g := Grid(cell, positions, exps);
    assert g.Failure?;
    var k :| 0 <= k < |positions| && Row(cell, positions[k], exps) == Failure(g.error);
    var j :| 0 <= j < |exps| && cell(positions[k], exps[j]) == Failure(g.error);
  }

  /** `experienceLevels.map(...)` as a loop, each cell computed by `CellAverage`. */
  method BuildRow(filtered: seq<SalaryEntry>, pos: string, exps: seq<string>) returns (r: Result<seq<Cell>>)
    ensures r == Row(CellOf(filtered), pos, exps)
  {
    var cell := CellOf(filtered);
    var cells: seq<Cell> := [];
    var j := 0;
    assert exps[..0] == [];
    while j < |exps|
      invariant 0 <= j <= |exps|
      invariant Row(cell, pos, exps[..j]) == Success(cells)
    {
      var salary := CellAverage(filtered, pos, exps[j]);
      if salary.Failure? {
        CellOfFailsWith(filtered);
        RowFailure(cell, pos, exps, j, ProcessError);
        return Failure(salary.error);
      }
      RowSnoc(cell, pos, exps, j);
      cells := cells + [Cell(exps[j], salary.value)];
      j := j + 1;
    }
    assert exps[..j] == exps;
    r := Success(cells);
  }

  /** `positions.map(...)` as a loop, each row computed by `BuildRow`. */
  method BuildGrid(filtered: seq<SalaryEntry>, positions: seq<string>, exps: seq<string>) returns (r: Result<seq<PositionRow>>)
    ensures r == Grid(CellOf(filtered), positions, exps)
  {
    var cell := CellOf(filtered);
    var rows: seq<PositionRow> := [];
    var i := 0;
    assert positions[..0] == [];
    while i < |positions|
      invariant 0 <= i <= |positions|
      invariant Grid(cell, positions[..i], exps) == Success(rows)
    {
      var row := BuildRow(filtered, positions[i], exps);
      if row.Failure? {
        CellOfFailsWith(filtered);
        GridFailure(cell, positions, exps, i, ProcessError);
        return Failure(row.error);
      }
      GridSnoc(cell, positions, exps, i);
      rows := rows + [PositionRow(positions[i], row.value)];
      i := i + 1;
    }
    assert positions[..i] == positions;
    r := Success(rows);
  }

  /** The handler: filter, then the grid over the route's positions and buckets. */
  method HandlePositionExperience(q: Query, data: seq<SalaryEntry>) returns (r: Result<seq<PositionRow>>)
    ensures r == PositionExperienceSalaries(q, data)
  {
    var filtered := PositionFilter(q, data);
    r := BuildGrid(filtered, PositionLabels, ExperienceOrder);
  }
}
