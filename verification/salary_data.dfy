/** The raw-data route: the records matching the position, level and currency parameters,
    their count, their mean range midpoint and the distinct values of three fields. */
module SalaryData {
  import opened Wrappers
  import opened Seqs
  import opened Numbers
  import opened Records
  import opened SalaryText
  import SalaryStats

  /** The route's answer when reading a salary throws. */
  const LoadError: string := "Veri yüklenirken bir hata oluştu"

  /** The request parameters, absent when missing from the query string. */
  datatype DataQuery = DataQuery(position: Option<string>, level: Option<string>, currency: Option<string>)

  // ---------------------------------------------------------------------------
  // Filtering

  /** `searchParams.get(name) || fallback`. */
  function Param(p: Option<string>, fallback: string): (v: string)
    ensures Truthy(p) ==> v == p.value
    ensures !Truthy(p) ==> v == fallback
  {
    if Truthy(p) then p.value else fallback
  }

  /** `value === 'all' || item[field] === value`. */
  predicate Accepts(value: string, field: Option<string>)
  {
    value == All || field == Some(value)
  }

  predicate DataSelected(q: DataQuery, r: SalaryEntry)
  {
    Accepts(Param(q.position, All), r.position)
    && Accepts(Param(q.level, All), r.level)
    && Accepts(Param(q.currency, TurkishLira), r.currency)
  }

  function DataSelection(q: DataQuery): SalaryEntry -> bool
  {
    r => DataSelected(q, r)
  }

  /** `filteredData`: position and level constrain only when given and not `all`; a
      missing currency means the Turkish Lira, `all` means any currency. */
  function DataFilter(q: DataQuery, data: seq<SalaryEntry>): (r: seq<SalaryEntry>)
    ensures IsSubsequence(r, data)
    ensures forall x :: x in r <==>
      x in data && MatchesParam(q.position, x.position) && MatchesParam(q.level, x.level)
      && (if Truthy(q.currency) then MatchesParam(q.currency, x.currency) else InLira(x))
    ensures |r| == Count(data, DataSelection(q))
  {
    FilterKeepsOnlyMatches(data, DataSelection(q));
    Filter(data, DataSelection(q))
  }

  /** Without a currency parameter the route selects exactly what the statistics routes do. */
  lemma {:induction false} DefaultCurrencyIsStatsFilter(q: DataQuery, data: seq<SalaryEntry>)
    requires !Truthy(q.currency)
    ensures DataFilter(q, data) == SalaryStats.FilterData(SalaryStats.Query(q.position, q.level), data)
  {
    FilterSame(data, DataSelection(q), SalaryStats.Selection(SalaryStats.Query(q.position, q.level)));
  }

  // ---------------------------------------------------------------------------
  // The mean salary

  /** `calculateAvgSalary`: 0 for no records; a record without a salary makes the route
      fail; otherwise the rounded mean of the range midpoints over all records, which is
      `NaN` (`None`) when any midpoint is. */
  function DataAverage(data: seq<SalaryEntry>): (r: Result<Option<int>>)
    ensures |data| == 0 ==> r == Success(Some(0))
    ensures r.Failure? <==> !AllSalariesPresent(data)
    ensures r.Failure? ==> r.error == LoadError
  {
    if !AllSalariesPresent(data) then Failure(LoadError)
    else Success(MeanOrNaN(Amounts(data, RangeMidpoint)))
  }

  /** The mean is `NaN` exactly when every salary is present and one of them, or one half
      of a range, does not parse. */
  lemma {:induction false} DataAverageNaN(data: seq<SalaryEntry>)
    ensures DataAverage(data) == Success(None) <==>
      AllSalariesPresent(data) && exists i :: 0 <= i < |data| && RangeMidpoint(data[i].salary.value).None?
  {
    if AllSalariesPresent(data) {
      MeanOrNaNIsNaN(Amounts(data, RangeMidpoint));
      AmountsAll(data, RangeMidpoint);
    }
  }

  /** Midpoints between two bounds give a mean between the rounded bounds. */
  lemma {:induction false} DataAverageBetween(data: seq<SalaryEntry>, lo: real, hi: real)
    requires |data| > 0 && AllSalariesPresent(data)
    requires forall i :: 0 <= i < |data| ==>
      RangeMidpoint(data[i].salary.value).Some? && lo <= RangeMidpoint(data[i].salary.value).value <= hi
    ensures DataAverage(data).Success? && DataAverage(data).value.Some?
    ensures Round(lo) <= DataAverage(data).value.value <= Round(hi)
  {
    AmountsAll(data, RangeMidpoint);
    MeanOrNaNBetween(Amounts(data, RangeMidpoint), lo, hi);
  }

  /** A single record averages to its own midpoint, rounded; with the salary
      `"10.000 - 20.000"` that is 15000. */
  lemma {:induction false} DataAverageOfOne(r: SalaryEntry, m: real)
    requires r.salary.Some? && RangeMidpoint(r.salary.value) == Some(m)
    ensures DataAverage([r]) == Success(Some(Round(m)))
  {
    AmountAt([r], RangeMidpoint, 0);
    MeanOrNaNOfEqual(Amounts([r], RangeMidpoint), m);
  }

  /** `calculateAvgSalary` as the route runs it: the running mean of the midpoints, failing
      at the first missing salary. */
  method CalculateAvgSalary(data: seq<SalaryEntry>) returns (r: Result<Option<int>>)
    ensures r == DataAverage(data)
  {
    var mean := RunningMean(data, RangeMidpoint);
    if mean.None? {
      return Failure(LoadError);
    }
    r := Success(mean.value);
  }

  // ---------------------------------------------------------------------------
  // Distinct values

  /** `item[field]` for every record, in order. */
  function Column(data: seq<SalaryEntry>, f: Field): seq<Option<string>>
  {
    seq(|data|, i requires 0 <= i < |data| => FieldOf(data[i], f))
  }

  /** `getUniqueValues`: the field's values without repetition, a missing field counting
      as one value of its own, in order of first occurrence. */
  function UniqueValues(data: seq<SalaryEntry>, f: Field): (vs: seq<Option<string>>)
    ensures Distinct(vs)
    ensures forall v :: v in vs <==> exists r :: r in data && FieldOf(r, f) == v
    ensures |vs| <= |data|
  {
    var col := Column(data, f);
    var vs := Dedup(col);
    forall v ensures v in vs <==> exists r :: r in data && FieldOf(r, f) == v {
      if v in col {
        var i :| 0 <= i < |col| && col[i] == v;
        assert data[i] in data;
      }
      if exists r :: r in data && FieldOf(r, f) == v {
        var r :| r in data && FieldOf(r, f) == v;
        var i :| 0 <= i < |data| && data[i] == r;
        assert col[i] == v;
      }
    }
    vs
  }

  /** The values come in order of their first occurrence in the column. */
  lemma {:induction false} UniqueValuesFirstOccurrence(data: seq<SalaryEntry>, f: Field)
    ensures forall i, j :: 0 <= i < j < |UniqueValues(data, f)| ==>
      FirstIndex(Column(data, f), UniqueValues(data, f)[i]) < FirstIndex(Column(data, f), UniqueValues(data, f)[j])
  {
    DedupFirstOccurrenceOrder(Column(data, f));
  }

  /** `getUniqueValues` as the route runs it: a `Set` filled in record order. */
  method GetUniqueValues(data: seq<SalaryEntry>, f: Field) returns (vs: seq<Option<string>>)
    ensures vs == UniqueValues(data, f)
  {
    var col := Column(data, f);
    vs := [];
    var i := 0;
    while i < |data|
      invariant 0 <= i <= |data|
      invariant vs == Dedup(col[..i])
    {
      assert col[..i + 1][..i] == col[..i];
      var v := FieldOf(data[i], f);
      if v !in vs {
        vs := vs + [v];
      }
      i := i + 1;
    }
    assert col[..i] == col;
  }

  // ---------------------------------------------------------------------------
  // The route

  datatype DataStats = DataStats(
    totalCount: nat,
    avgSalary: Option<int>,
    positions: seq<Option<string>>,
    levels: seq<Option<string>>,
    currencies: seq<Option<string>>)

  /** The success body: the filtered records and their statistics. */
  datatype DataResponse = DataResponse(data: seq<SalaryEntry>, stats: DataStats)

  /** The route's answer for a dataset: a missing salary among the selected records turns
      the whole answer into the error. */
  function GetSalaryData(q: DataQuery, data: seq<SalaryEntry>): (r: Result<DataResponse>)
    ensures r.Failure? <==> exists x :: x in DataFilter(q, data) && x.salary.None?
    ensures r.Failure? ==> r.error == LoadError
    ensures r.Success? ==> r.value.data == DataFilter(q, data) && r.value.stats.totalCount == |r.value.data|
    ensures r.Success? ==> |r.value.stats.positions| <= r.value.stats.totalCount
  {
    var filtered := DataFilter(q, data);
    assert AllSalariesPresent(filtered) <==> forall x :: x in filtered ==> x.salary.Some?;
    match DataAverage(filtered)
    case Failure(e) => Failure(e)
    case Success(avg) =>
      Success(DataResponse(filtered, DataStats(
        |filtered|,
        avg,
        UniqueValues(filtered, Position),
        UniqueValues(filtered, Level),
        UniqueValues(filtered, Currency))))
  }

  /** The handler: filter, then the statistics computed by the route's own loops. */
  method HandleSalaryData(q: DataQuery, data: seq<SalaryEntry>) returns (r: Result<DataResponse>)
    ensures r == GetSalaryData(q, data)
  {
    var filtered := DataFilter(q, data);
    var avg := CalculateAvgSalary(filtered);
    if avg.Failure? {
      return Failure(avg.error);
    }
    var positions := GetUniqueValues(filtered, Position);
    var levels := GetUniqueValues(filtered, Level);
    var currencies := GetUniqueValues(filtered, Currency);
    r := Success(DataResponse(filtered, DataStats(|filtered|, avg.value, positions, levels, currencies)));
  }
}
