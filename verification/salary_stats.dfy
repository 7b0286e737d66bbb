/** The statistics route: the Turkish-Lira answers matching an optional position and
    level, summarised as an overall average salary and six chart series. */
module SalaryStats {
  import opened Wrappers
  import opened Seqs
  import opened Numbers
  import opened Records
  import opened SalaryText
  import opened Groups

  /** The `position` and `level` query parameters, `null` when absent. */
  datatype Query = Query(position: Option<string>, level: Option<string>)

  /** The response's `stats` object. */
  datatype Stats = Stats(
    positionAverageSalary: seq<Entry>,
    experienceSalaryData: seq<Entry>,
    companySizeAvgSalary: seq<Entry>,
    workTypeDistribution: seq<Entry>,
    companyAverageSalary: seq<Entry>,
    cityAverageSalary: seq<Entry>,
    avg: int)

  /** The seven company-size buckets, in their canonical order. */
  const CompanySizeOrder: seq<string> := [
    "1 - 5 Kişi", "6 - 10 Kişi", "11 - 20 Kişi", "21 - 50 Kişi",
    "51 - 100 Kişi", "101 - 249 Kişi", "250+"
  ]

  /** The 71 province names the city series admits (the list leaves ten provinces out). */
  const TurkishCities: seq<string> := [
    "Adana", "Adıyaman", "Afyonkarahisar", "Aksaray", "Amasya", "Ankara", "Antalya",
    "Ardahan", "Artvin", "Aydın", "Ağrı", "Balıkesir", "Batman", "Bilecik", "Bitlis",
    "Bolu", "Bursa", "Denizli", "Diyarbakır", "Düzce", "Edirne", "Elazığ", "Erzincan",
    "Erzurum", "Eskişehir", "Gaziantep", "Giresun", "Hakkari", "Hatay", "Isparta",
    "Iğdır", "Kahramanmaraş", "Karabük", "Karaman", "Kars", "Kastamonu", "Kayseri",
    "Kilis", "Kocaeli", "Konya", "Kütahya", "Kırklareli", "Kırşehir", "Malatya",
    "Manisa", "Mardin", "Mersin", "Muğla", "Muş", "Nevşehir", "Niğde", "Ordu",
    "Osmaniye", "Rize", "Sakarya", "Samsun", "Sinop", "Sivas", "Tekirdağ", "Tokat",
    "Trabzon", "Uşak", "Van", "Yalova", "Yozgat", "Zonguldak", "Çanakkale", "Çorum",
    "İstanbul", "İzmir", "Şanlıurfa"
  ]

  /** How many entries the company and city series keep. */
  const TopCount: nat := 10

  // ---------------------------------------------------------------------------
  // Filtering

  /** The record passes the route's filter. */
  predicate Selected(q: Query, r: SalaryEntry)
  {
    MatchesParam(q.position, r.position) && MatchesParam(q.level, r.level) && InLira(r)
  }

  function Selection(q: Query): SalaryEntry -> bool
  {
    r => Selected(q, r)
  }

  /** `filteredData`: the records in Turkish Lira whose position and level match the
      parameters, in their original order. */
  function FilterData(q: Query, data: seq<SalaryEntry>): (r: seq<SalaryEntry>)
    ensures IsSubsequence(r, data)
    ensures forall x :: x in r <==>
      x in data && x.currency == Some(TurkishLira)
      && (Unconstrained(q.position) || x.position == q.position)
      && (Unconstrained(q.level) || x.level == q.level)
    ensures |r| == Count(data, Selection(q))
  {
    FilterKeepsOnlyMatches(data, Selection(q));
    Filter(data, Selection(q))
  }

  /** An absent, empty or `"all"` parameter filters exactly as no parameter does. */
  lemma {:induction false} UnconstrainedParamsIgnored(q: Query, data: seq<SalaryEntry>)
    ensures Unconstrained(q.position) ==> FilterData(q, data) == FilterData(q.(position := None), data)
    ensures Unconstrained(q.level) ==> FilterData(q, data) == FilterData(q.(level := None), data)
  {
    if Unconstrained(q.position) {
      FilterSame(data, Selection(q), Selection(q.(position := None)));
    }
    if Unconstrained(q.level) {
      FilterSame(data, Selection(q), Selection(q.(level := None)));
    }
  }

  /** Records in other currencies never reach any statistic. */
  lemma {:induction false} OnlyLiraSelected(q: Query, data: seq<SalaryEntry>)
    ensures FilterData(q, Filter(data, InLira)) == FilterData(q, data)
  {
    FilterTwice(data, InLira, Selection(q), Selection(q));
  }

  // ---------------------------------------------------------------------------
  // Salaries

  /** `item.salary` read as a number: `NaN` (`None`) when missing, empty or unparseable. */
  function EntrySalary(r: SalaryEntry): Option<real>
  {
    if Truthy(r.salary) then LocaleNumber(r.salary.value) else None
  }

  /** The amounts `read` finds, in record order. */
  function Parsed(data: seq<SalaryEntry>, read: SalaryEntry -> Option<real>): (vs: seq<real>)
    ensures |vs| <= |data|
  {
    if |data| == 0 then []
    else
      var rest := Parsed(data[1..], read);
      match read(data[0])
      case Some(v) => [v] + rest
      case None => rest
  }

  /** Every amount found is kept, and nothing else is. */
  lemma {:induction false} ParsedMembers(data: seq<SalaryEntry>, read: SalaryEntry -> Option<real>)
    ensures forall r :: r in data && read(r).Some? ==> read(r).value in Parsed(data, read)
    ensures forall v :: v in Parsed(data, read) ==> exists r :: r in data && read(r) == Some(v)
  {
    if |data| > 0 {
      ParsedMembers(data[1..], read);
      ConsMembers(data);
    }
  }

  lemma {:induction false} ParsedAppend(a: seq<SalaryEntry>, b: seq<SalaryEntry>, read: SalaryEntry -> Option<real>)
    ensures Parsed(a + b, read) == Parsed(a, read) + Parsed(b, read)
    decreases |a|
  {
    if |a| == 0 {
      assert a + b == b;
    } else {
      assert (a + b)[1..] == a[1..] + b;
      assert (a + b)[0] == a[0];
      ParsedAppend(a[1..], b, read);
    }
  }

  lemma {:induction false} ParsedSingle(r: SalaryEntry, read: SalaryEntry -> Option<real>)
    ensures Parsed([r], read) == if read(r).Some? then [read(r).value] else []
  {
    assert [r][1..] == [];
    assert [r][0] == r;
  }

  /** One more record adds its amount, if `read` finds one, to the count and the total. */
  lemma {:induction false} ParsedStep(data: seq<SalaryEntry>, i: nat, read: SalaryEntry -> Option<real>)
    requires i < |data|
    ensures |Parsed(data[..i + 1], read)| == |Parsed(data[..i], read)| + (if read(data[i]).Some? then 1 else 0)
    ensures Sum(Parsed(data[..i + 1], read)) == Sum(Parsed(data[..i], read)) + (if read(data[i]).Some? then read(data[i]).value else 0.0)
  {
    var init, item := data[..i], data[i];
    assert data[..i + 1] == init + [item];
    ParsedAppend(init, [item], read);
    ParsedSingle(item, read);
    SumAppend(Parsed(init, read), Parsed([item], read));
    if read(item).Some? {
      var v := read(item).value;
      assert Sum([v]) == v by {
        var none: seq<real> := [];
        assert [v] == none + [v];
      }
    }
  }

  /** The salaries that parse, in record order. */
  function ParsedSalaries(data: seq<SalaryEntry>): (vs: seq<real>)
    ensures |vs| <= |data|
  {
    Parsed(data, EntrySalary)
  }

  /** Every salary that parses is kept, and nothing else is. */
  lemma {:induction false} ParsedSalariesMembers(data: seq<SalaryEntry>)
    ensures forall r :: r in data && EntrySalary(r).Some? ==> EntrySalary(r).value in ParsedSalaries(data)
    ensures forall v :: v in ParsedSalaries(data) ==> exists r :: r in data && EntrySalary(r) == Some(v)
  {
    ParsedMembers(data, EntrySalary);
  }

  lemma {:induction false} ParsedSalariesAppend(a: seq<SalaryEntry>, b: seq<SalaryEntry>)
    ensures ParsedSalaries(a + b) == ParsedSalaries(a) + ParsedSalaries(b)
  {
    ParsedAppend(a, b, EntrySalary);
  }

  /** What `calculateAvgSalary` returns: the rounded mean of the salaries that parse,
      or 0 when there are none (which covers the empty input). */
  function AverageSalary(data: seq<SalaryEntry>): (avg: int)
    ensures |ParsedSalaries(data)| == 0 ==> avg == 0
  {
    var vs := ParsedSalaries(data);
    if |vs| == 0 then 0 else Round(Mean(vs))
  }

  /** `calculateAvgSalary`, as the route computes it: one pass adding up the salaries
      that parse and counting them. */
  method CalculateAvgSalary(data: seq<SalaryEntry>) returns (avg: int)
    ensures avg == AverageSalary(data)
  {
    avg := RunningAverage(data, EntrySalary);
  }

  /** The loop of `calculateAvgSalary` for amounts found by `read`. */
  method RunningAverage(data: seq<SalaryEntry>, read: SalaryEntry -> Option<real>) returns (avg: int)
    ensures |Parsed(data, read)| == 0 ==> avg == 0
    ensures |Parsed(data, read)| > 0 ==> avg == Round(Mean(Parsed(data, read)))
  {
    if |data| == 0 {
      return 0;
    }
    var total := 0.0;
    var count := 0;
    var i := 0;
    while i < |data|
      invariant 0 <= i <= |data|
      invariant count == |Parsed(data[..i], read)|
      invariant total == Sum(Parsed(data[..i], read))
    {
      var amount := read(data[i]);
      ParsedStep(data, i, read);
      if amount.Some? {
        total := total + amount.value;
        count := count + 1;
      }
      i := i + 1;
    }
    assert data[..i] == data;
    avg := if count > 0 then Round(total / count as real) else 0;
  }

  /** The average lies between the rounded smallest and largest salary that parse. */
  lemma {:induction false} AverageSalaryBetween(data: seq<SalaryEntry>)
    requires |ParsedSalaries(data)| > 0
    ensures Round(Min(ParsedSalaries(data))) <= AverageSalary(data) <= Round(Max(ParsedSalaries(data)))
  {
    RoundedMeanBetween(ParsedSalaries(data));
  }

  /** A record whose salary is missing or does not parse changes nothing. */
  lemma {:induction false} AverageIgnoresUnparseable(a: seq<SalaryEntry>, x: SalaryEntry, b: seq<SalaryEntry>)
    requires EntrySalary(x).None?
    ensures AverageSalary(a + [x] + b) == AverageSalary(a + b)
  {
    ParsedSalariesAppend(a + [x], b);
    ParsedSalariesAppend(a, [x]);
    ParsedSalariesAppend(a, b);
    ParsedSingle(x, EntrySalary);
    assert ParsedSalaries(a) + [] == ParsedSalaries(a);
  }

  /** When every salary that parses is the same amount `v`, that amount, rounded, is the average. */
  lemma {:induction false} AverageOfEqualSalaries(data: seq<SalaryEntry>, v: real)
    requires |ParsedSalaries(data)| > 0
    requires forall r :: r in data && EntrySalary(r).Some? ==> EntrySalary(r).value == v
    ensures AverageSalary(data) == Round(v)
  {
    var vs := ParsedSalaries(data);
    ParsedSalariesMembers(data);
    forall i | 0 <= i < |vs| ensures v <= vs[i] <= v {
      assert vs[i] in vs;
    }
    MeanWithin(vs, v, v);
  }

  // ---------------------------------------------------------------------------
  // Keyed contributions

  /** What one record adds to the reduction keyed by field `f`: its key and salary, when
      the key is truthy and the salary parses. */
  function ContributionOf(r: SalaryEntry, f: Field): seq<Contribution>
  {
    if Truthy(FieldOf(r, f)) && EntrySalary(r).Some? then [(FieldOf(r, f).value, EntrySalary(r).value)] else []
  }

  /** Field `f` is `k` on some record whose salary parses, so that `k` gets a slot. */
  predicate Contributes(data: seq<SalaryEntry>, f: Field, k: string)
  {
    k != "" && exists r :: r in data && FieldOf(r, f) == Some(k) && EntrySalary(r).Some?
  }

  /** All the contributions of the records, in record order. */
  function Contributions(data: seq<SalaryEntry>, f: Field): (cs: seq<Contribution>)
    ensures |cs| <= |data|
    ensures forall i :: 0 <= i < |cs| ==> cs[i].0 != ""
  {
    if |data| == 0 then []
    else ContributionOf(data[0], f) + Contributions(data[1..], f)
  }

  /** The amounts in slot `k` are exactly the parsed salaries of the records whose
      field is `k`: a slot's average is `calculateAvgSalary` of its records. */
  lemma {:induction false} KeyedSalaries(data: seq<SalaryEntry>, f: Field, k: string)
    requires k != ""
    ensures ValuesFor(Contributions(data, f), k) == ParsedSalaries(Filter(data, HasKey(f, k)))
    decreases |data|
  {
    if |data| > 0 {
      var x := data[0];
      var c := ContributionOf(x, f);
      var rest := Contributions(data[1..], f);
      var fs := Filter(data[1..], HasKey(f, k));
      KeyedSalaries(data[1..], f, k);
      ValuesForAppend(c, rest, k);
      if HasKey(f, k)(x) {
        assert Filter(data, HasKey(f, k)) == [x] + fs;
        ParsedSalariesAppend([x], fs);
        if EntrySalary(x).Some? {
          assert c == [(k, EntrySalary(x).value)];
          assert c[..0] == [];
          assert ValuesFor(c, k) == [EntrySalary(x).value];
        } else {
          assert c == [];
        }
      } else {
        assert Filter(data, HasKey(f, k)) == fs;
        assert ValuesFor(c, k) == [] by {
          if c != [] {
            assert c[..0] == [];
          }
        }
      }
    }
  }

  /** One record contributes to slot `k` exactly when its key is `k` and its salary parses. */
  lemma {:induction false} ContributionOfKeys(x: SalaryEntry, f: Field, k: string)
    ensures k in ContributionKeys(ContributionOf(x, f)) <==> k != "" && FieldOf(x, f) == Some(k) && EntrySalary(x).Some?
  {
    var c := ContributionOf(x, f);
    if Truthy(FieldOf(x, f)) && EntrySalary(x).Some? {
      assert ContributionKeys(c) == [FieldOf(x, f).value];
    } else {
      assert ContributionKeys(c) == [];
    }
  }

  /** A key gets a slot exactly when some record with that key has a salary that parses. */
  lemma {:induction false} ContributionKeysIff(data: seq<SalaryEntry>, f: Field, k: string)
    ensures k in ContributionKeys(Contributions(data, f)) <==> Contributes(data, f, k)
    decreases |data|
  {
    if |data| > 0 {
      var x := data[0];
      var c := ContributionOf(x, f);
      var rest := Contributions(data[1..], f);
      ContributionKeysIff(data[1..], f, k);
      ContributionOfKeys(x, f, k);
      ContributionKeysAppend(c, rest);
      if k in ContributionKeys(c) {
        assert x in data;
      } else if k in ContributionKeys(rest) {
        var r :| r in data[1..] && FieldOf(r, f) == Some(k) && EntrySalary(r).Some?;
        assert r in data;
      }
      if Contributes(data, f, k) {
        var r :| r in data && FieldOf(r, f) == Some(k) && EntrySalary(r).Some?;
        var i :| 0 <= i < |data| && data[i] == r;
        if i > 0 {
          assert data[1..][i - 1] == r;
        }
      }
    }
  }



  lemma {:induction false} ContributionKeysAll(data: seq<SalaryEntry>, f: Field)
    ensures forall k :: k in ContributionKeys(Contributions(data, f)) <==> Contributes(data, f, k)
  {
    forall k {
      ContributionKeysIff(data, f, k);
    }
  }

  /** Each entry is named by a key and holds `calculateAvgSalary` of the records that
      have that key, at least one of whose salaries parses. */
  ghost predicate BucketAverages(es: seq<Entry>, data: seq<SalaryEntry>, f: Field)
  {
    forall i :: 0 <= i < |es| ==>
      Contributes(data, f, es[i].name)
      && |ParsedSalaries(Filter(data, HasKey(f, es[i].name)))| > 0
      && es[i].value == AverageSalary(Filter(data, HasKey(f, es[i].name)))
  }

  lemma {:induction false} RoundedMeansAreBucketAverages(es: seq<Entry>, data: seq<SalaryEntry>, f: Field)
    requires RoundedMeans(es, Contributions(data, f))
    ensures BucketAverages(es, data, f)
  {
    var cs := Contributions(data, f);
    forall i | 0 <= i < |es|
      ensures Contributes(data, f, es[i].name)
      ensures |ParsedSalaries(Filter(data, HasKey(f, es[i].name)))| > 0
      ensures es[i].value == AverageSalary(Filter(data, HasKey(f, es[i].name)))
    {
      var k := es[i].name;
      ValuesForPresent(cs, k);
      ContributionKeysIff(data, f, k);
      KeyedSalaries(data, f, k);
    }
  }

  // ---------------------------------------------------------------------------
  // Series

  /** A series in the order of a fixed key list (`experienceSalaryData`,
      `companySizeAvgSalary`): one entry for each listed key some record contributes
      to, in list order, holding that key's average. */
  function OrderedAverages(data: seq<SalaryEntry>, f: Field, order: seq<string>): (es: seq<Entry>)
    ensures IsSubsequence(Names(es), order)
    ensures forall k :: k in Names(es) <==> k in order && Contributes(data, f, k)
    ensures BucketAverages(es, data, f)
  {
    var es := CanonicalAverages(order, Contributions(data, f));
    ContributionKeysAll(data, f);
    RoundedMeansAreBucketAverages(es, data, f);
    es
  }

  /** A series ranked by average (`positionAverageSalary`): every contributing key once,
      highest average first, keys with equal averages in order of first appearance. */
  function RankedAverages(data: seq<SalaryEntry>, f: Field): (es: seq<Entry>)
    ensures SortedDesc(es)
    ensures Distinct(Names(es))
    ensures forall k :: k in Names(es) <==> Contributes(data, f, k)
    ensures BucketAverages(es, data, f)
  {
    var cs := Contributions(data, f);
    var unsorted := GroupAverages(cs);
    var es := SortDesc(unsorted);
    SortKeepsRoundedMeans(unsorted, cs);
    SortKeepsNames(unsorted);
    DistinctPermutation(Names(unsorted), Names(es));
    assert forall k :: k in Names(es) <==> k in multiset(Names(es));
    assert forall k :: k in Names(unsorted) <==> k in multiset(Names(unsorted));
    ContributionKeysAll(data, f);
    RoundedMeansAreBucketAverages(es, data, f);
    es
  }

  /** Ties keep the order in which the keys first appear among the records. */
  lemma {:induction false} RankedTiesInFirstAppearanceOrder(data: seq<SalaryEntry>, f: Field, v: int)
    ensures ValueClass(RankedAverages(data, f), v) == ValueClass(GroupAverages(Contributions(data, f)), v)
  {
    SortStable(GroupAverages(Contributions(data, f)), v);
  }

  /** A prefix of a series keeps its names and their averages. */
  lemma {:induction false} PrefixKeepsBuckets(all: seq<Entry>, m: nat, data: seq<SalaryEntry>, f: Field)
    requires m <= |all|
    requires BucketAverages(all, data, f)
    ensures BucketAverages(all[..m], data, f)
    ensures forall k :: k in Names(all[..m]) ==> k in Names(all)
  {
    assert Names(all[..m]) == Names(all)[..m];
  }

  /** `.slice(0, 10)` of a ranked series (`companyAverageSalary`, `cityAverageSalary`):
      at most ten contributing keys, highest average first. */
  function TopAverages(data: seq<SalaryEntry>, f: Field): (es: seq<Entry>)
    ensures |es| <= TopCount
    ensures SortedDesc(es)
    ensures Distinct(Names(es))
    ensures forall k :: k in Names(es) ==> Contributes(data, f, k)
    ensures BucketAverages(es, data, f)
  {
    var all := RankedAverages(data, f);
    var es := Take(all, TopCount);
    TopKeepsLargest(all, TopCount);
    PrefixKeepsBuckets(all, |es|, data, f);
    es
  }

  /** The kept keys are the ones with the highest averages: a contributing key left out
      averages no more than any key kept, and keys are left out only when ten are kept. */
  lemma {:induction false} TopAveragesAreLargest(data: seq<SalaryEntry>, f: Field, k: string)
    requires Contributes(data, f, k) && k !in Names(TopAverages(data, f))
    ensures |TopAverages(data, f)| == TopCount
    ensures forall i :: 0 <= i < |TopAverages(data, f)| ==>
      AverageSalary(Filter(data, HasKey(f, k))) <= TopAverages(data, f)[i].value
  {
    var all := RankedAverages(data, f);
    var j := LeftOutIndex(all, TopCount, k);
  }

  /** The record's city is one of `cities` (`turkishCities.includes(item.city)`). */
  predicate InCities(cities: seq<string>, r: SalaryEntry)
  {
    r.city.Some? && r.city.value in cities
  }

  function CityFilter(cities: seq<string>): SalaryEntry -> bool
  {
    r => InCities(cities, r)
  }

  /** A key that some admitted record contributes is an admitted city with a contribution. */
  lemma {:induction false} CityContributes(data: seq<SalaryEntry>, cities: seq<string>, k: string)
    requires Contributes(Filter(data, CityFilter(cities)), City, k)
    ensures k in cities && Contributes(data, City, k)
  {
    var r :| r in Filter(data, CityFilter(cities)) && FieldOf(r, City) == Some(k) && EntrySalary(r).Some?;
    FilterMember(data, CityFilter(cities), r);
    CityOfRecord(cities, r, k);
  }

  lemma {:induction false} CityOfRecord(cities: seq<string>, r: SalaryEntry, k: string)
    requires CityFilter(cities)(r) && FieldOf(r, City) == Some(k)
    ensures k in cities
  {
    assert InCities(cities, r);
  }

  /** `cityAverageSalary`: the ten admitted cities with the highest averages (the route
      admits the `TurkishCities`). */
  function CityAverageSalary(data: seq<SalaryEntry>, cities: seq<string>): (es: seq<Entry>)
    ensures |es| <= TopCount
    ensures SortedDesc(es)
    ensures Distinct(Names(es))
    ensures forall k :: k in Names(es) ==> k in cities && Contributes(data, City, k)
    ensures BucketAverages(es, data, City)
  {
    var es := TopAverages(Filter(data, CityFilter(cities)), City);
    forall k | k in Names(es) ensures k in cities && Contributes(data, City, k) {
      CityContributes(data, cities, k);
    }
    AdmittedBuckets(es, data, cities);
    es
  }

  /** Buckets over the admitted records are the buckets over all records. */
  lemma {:induction false} AdmittedBuckets(es: seq<Entry>, data: seq<SalaryEntry>, cities: seq<string>)
    requires BucketAverages(es, Filter(data, CityFilter(cities)), City)
    requires forall k :: k in Names(es) ==> k in cities && Contributes(data, City, k)
    ensures BucketAverages(es, data, City)
  {
    var admitted := Filter(data, CityFilter(cities));
    forall i | 0 <= i < |es|
      ensures Contributes(data, City, es[i].name)
      ensures |ParsedSalaries(Filter(data, HasKey(City, es[i].name)))| > 0
      ensures es[i].value == AverageSalary(Filter(data, HasKey(City, es[i].name)))
    {
      assert Names(es)[i] == es[i].name;
      CityBucketsUnrestricted(data, cities, es[i].name);
      SameBucket(es[i], Filter(admitted, HasKey(City, es[i].name)), Filter(data, HasKey(City, es[i].name)));
    }
  }

  /** An entry that averages a bucket averages any equal bucket. */
  lemma {:induction false} SameBucket(e: Entry, a: seq<SalaryEntry>, b: seq<SalaryEntry>)
    requires a == b
    requires |ParsedSalaries(a)| > 0 && e.value == AverageSalary(a)
    ensures |ParsedSalaries(b)| > 0 && e.value == AverageSalary(b)
  {
  }

  /** For an admitted city, admitting first changes nothing: each city entry is the
      average of all that city's records. */
  lemma {:induction false} CityBucketsUnrestricted(data: seq<SalaryEntry>, cities: seq<string>, k: string)
    requires k in cities
    ensures Filter(Filter(data, CityFilter(cities)), HasKey(City, k)) == Filter(data, HasKey(City, k))
  {
    FilterTwice(data, CityFilter(cities), HasKey(City, k), HasKey(City, k));
  }

  // ---------------------------------------------------------------------------
  // Work-type distribution

  /** One `+1` per record whose field `f` is truthy. */
  function Occurrences(data: seq<SalaryEntry>, f: Field): (cs: seq<Contribution>)
    ensures |cs| == Count(data, HasField(f))
    ensures forall i :: 0 <= i < |cs| ==> cs[i].0 != ""
  {
    if |data| == 0 then []
    else
      var c := if Truthy(FieldOf(data[0], f)) then [(FieldOf(data[0], f).value, 1.0)] else [];
      c + Occurrences(data[1..], f)
  }

  /** Slot `k` of the count is bumped once per record whose field is `k`. */
  lemma {:induction false} OccurrencesCount(data: seq<SalaryEntry>, f: Field, k: string)
    requires k != ""
    ensures |ValuesFor(Occurrences(data, f), k)| == Count(data, HasKey(f, k))
    decreases |data|
  {
    if |data| > 0 {
      var c := if Truthy(FieldOf(data[0], f)) then [(FieldOf(data[0], f).value, 1.0)] else [];
      OccurrencesCount(data[1..], f, k);
      ValuesForAppend(c, Occurrences(data[1..], f), k);
      if c != [] {
        assert c[..0] == [];
      }
    }
  }

  /** A key is counted exactly when some record names it. */
  lemma {:induction false} OccurrenceKeysIff(data: seq<SalaryEntry>, f: Field, k: string)
    ensures k in ContributionKeys(Occurrences(data, f)) <==> k != "" && exists r :: r in data && FieldOf(r, f) == Some(k)
  {
    if k != "" {
      var cs := Occurrences(data, f);
      ValuesForPresent(cs, k);
      OccurrencesCount(data, f, k);
      CountPositive(data, HasKey(f, k));
    }
  }

  /** `workTypeDistribution`: one entry per work type, most frequent first, the counts
      adding up to the number of records that name a work type. */
  function WorkTypeDistribution(data: seq<SalaryEntry>): (es: seq<Entry>)
    ensures SortedDesc(es)
    ensures Distinct(Names(es))
    ensures EntrySum(es) == Count(data, HasField(WorkType))
  {
    var unsorted := GroupCounts(Occurrences(data, WorkType));
    var es := SortDesc(unsorted);
    SortKeepsNames(unsorted);
    SortKeepsSum(unsorted);
    DistinctPermutation(Names(unsorted), Names(es));
    es
  }

  /** Exactly the work types some record names are listed. */
  lemma {:induction false} WorkTypeNames(data: seq<SalaryEntry>, k: string)
    ensures k in Names(WorkTypeDistribution(data)) <==> k != "" && exists r :: r in data && r.workType == Some(k)
  {
    var cs := Occurrences(data, WorkType);
    var unsorted := GroupCounts(cs);
    var es := SortDesc(unsorted);
    SortKeepsNames(unsorted);
    assert k in Names(es) <==> k in multiset(Names(es));
    assert k in Names(unsorted) <==> k in multiset(Names(unsorted));
    OccurrenceKeysIff(data, WorkType, k);
    assert forall r :: FieldOf(r, WorkType) == r.workType;
  }

  /** Each work type's value is the number of records that name it. */
  lemma {:induction false} WorkTypeCounts(data: seq<SalaryEntry>, i: nat)
    requires i < |WorkTypeDistribution(data)|
    ensures WorkTypeDistribution(data)[i].value == Count(data, HasKey(WorkType, WorkTypeDistribution(data)[i].name))
  {
    var cs := Occurrences(data, WorkType);
    var unsorted := GroupCounts(cs);
    var es := SortDesc(unsorted);
    var e := es[i];
    assert e in multiset(unsorted) by {
      assert e in multiset(es);
    }
    var j :| 0 <= j < |unsorted| && unsorted[j] == e;
    assert Names(unsorted)[j] in ContributionKeys(cs);
    var n :| 0 <= n < |cs| && cs[n].0 == e.name;
    OccurrencesCount(data, WorkType, e.name);
  }

  // ---------------------------------------------------------------------------
  // The reductions, one record at a time

  lemma {:induction false} ContributionsAppend(a: seq<SalaryEntry>, b: seq<SalaryEntry>, f: Field)
    ensures Contributions(a + b, f) == Contributions(a, f) + Contributions(b, f)
    decreases |a|
  {
    if |a| == 0 {
      assert a + b == b;
    } else {
      assert (a + b)[1..] == a[1..] + b;
      ContributionsAppend(a[1..], b, f);
    }
  }

  lemma {:induction false} OccurrencesAppend(a: seq<SalaryEntry>, b: seq<SalaryEntry>, f: Field)
    ensures Occurrences(a + b, f) == Occurrences(a, f) + Occurrences(b, f)
    decreases |a|
  {
    if |a| == 0 {
      assert a + b == b;
    } else {
      assert (a + b)[1..] == a[1..] + b;
      OccurrencesAppend(a[1..], b, f);
    }
  }

  /** Record `i` adds one to its key's count when the key is truthy. */
  lemma {:induction false} CountStep(data: seq<SalaryEntry>, i: nat, f: Field)
    requires i < |data|
    ensures Occurrences(data[..i + 1], f)
      == Occurrences(data[..i], f) + (if Truthy(FieldOf(data[i], f)) then [(FieldOf(data[i], f).value, 1.0)] else [])
  {
    var x := data[i];
    assert data[..i + 1] == data[..i] + [x];
    OccurrencesAppend(data[..i], [x], f);
    assert [x][1..] == [];
  }

  /** Every record is admitted (the reductions without an extra test). */
  function AnyRecord(): SalaryEntry -> bool
  {
    r => true
  }

  /** Record `i` contributes what `ContributionOf` says, if `admit` lets it in. */
  lemma {:induction false} ReduceStep(data: seq<SalaryEntry>, i: nat, f: Field, admit: SalaryEntry -> bool)
    requires i < |data|
    ensures Contributions(Filter(data[..i + 1], admit), f)
      == Contributions(Filter(data[..i], admit), f) + (if admit(data[i]) then ContributionOf(data[i], f) else [])
  {
    var x := data[i];
    assert data[..i + 1] == data[..i] + [x];
    FilterAppend(data[..i], [x], admit);
    assert [x][1..] == [];
    ContributionsAppend(Filter(data[..i], admit), Filter([x], admit), f);
    assert Contributions([x], f) == ContributionOf(x, f);
  }

  /** The route's test: a truthy key, a truthy salary, and a salary that parses. */
  lemma {:induction false} ContributionOfRead(x: SalaryEntry, f: Field)
    ensures ContributionOf(x, f) == if Truthy(FieldOf(x, f)) && Truthy(x.salary) && EntrySalary(x).Some?
      then [(FieldOf(x, f).value, EntrySalary(x).value)] else []
  {
  }

  /** One step of a `reduce` keyed by field `f` over the records `admit` lets in: a
      record whose key and salary are truthy and whose salary parses adds that salary to
      its key's slot, which is created with total and count 0 on first sight. */
  method ReduceRecord(acc: seq<Group>, item: SalaryEntry, f: Field, admit: SalaryEntry -> bool, ghost before: seq<Contribution>)
    returns (next: seq<Group>)
    requires acc == Accumulate(before)
    ensures next == Accumulate(before + if admit(item) then ContributionOf(item, f) else [])
  {
    ghost var step := if admit(item) then ContributionOf(item, f) else [];
    ContributionOfRead(item, f);
    var key := FieldOf(item, f);
    next := acc;
    if Truthy(key) && Truthy(item.salary) && admit(item) {
      var salary := EntrySalary(item);
      if salary.Some? {
        assert step == [(key.value, salary.value)];
        AccumulateStep(before, (key.value, salary.value));
        next := Add(acc, (key.value, salary.value));
      } else {
        assert step == [];
        assert before + step == before;
      }
    } else {
      assert step == [];
      assert before + step == before;
    }
  }

  /** The whole `reduce`, record by record. */
  method ReduceSalaries(data: seq<SalaryEntry>, f: Field, admit: SalaryEntry -> bool) returns (acc: seq<Group>)
    ensures acc == Accumulate(Contributions(Filter(data, admit), f))
  {
    acc := [];
    var i := 0;
    ghost var seen: seq<SalaryEntry> := [];
    while i < |data|
      invariant 0 <= i <= |data|
      invariant seen == Filter(data[..i], admit)
      invariant acc == Accumulate(Contributions(seen, f))
    {
      ReduceStep(data, i, f, admit);
      acc := ReduceRecord(acc, data[i], f, admit, Contributions(seen, f));
      seen := Filter(data[..i + 1], admit);
      i := i + 1;
    }
    assert data[..i] == data;
  }

  /** `workTypeDistribution`'s `reduce`: `acc[k] = (acc[k] || 0) + 1` for every record
      whose work type `k` is truthy. */
  method CountWorkTypes(data: seq<SalaryEntry>) returns (acc: seq<Group>)
    ensures acc == Accumulate(Occurrences(data, WorkType))
  {
    acc := [];
    var i := 0;
    while i < |data|
      invariant 0 <= i <= |data|
      invariant acc == Accumulate(Occurrences(data[..i], WorkType))
    {
      var workType := FieldOf(data[i], WorkType);
      ghost var before := Occurrences(data[..i], WorkType);
      CountStep(data, i, WorkType);
      if Truthy(workType) {
        AccumulateStep(before, (workType.value, 1.0));
        acc := Add(acc, (workType.value, 1.0));
      } else {
        assert before + [] == before;
      }
      i := i + 1;
    }
    assert data[..i] == data;
  }

  // ---------------------------------------------------------------------------
  // The route

  /** The `stats` the route returns for query `q`. */
  function GetStats(q: Query, data: seq<SalaryEntry>): (s: Stats)
    ensures s.avg == AverageSalary(FilterData(q, data))
    ensures |s.companyAverageSalary| <= TopCount && |s.cityAverageSalary| <= TopCount
    ensures IsSubsequence(Names(s.experienceSalaryData), ExperienceOrder)
    ensures IsSubsequence(Names(s.companySizeAvgSalary), CompanySizeOrder)
  {
    var filtered := FilterData(q, data);
    Stats(
      RankedAverages(filtered, Position),
      OrderedAverages(filtered, Experience, ExperienceOrder),
      OrderedAverages(filtered, CompanySize, CompanySizeOrder),
      WorkTypeDistribution(filtered),
      TopAverages(filtered, Company),
      CityAverageSalary(filtered, TurkishCities),
      AverageSalary(filtered))
  }

  /** The ranked series is the sorted slot averages of the keyed reduction. */
  lemma {:induction false} RankedFromSlots(data: seq<SalaryEntry>, f: Field, gs: seq<Group>)
    requires gs == Accumulate(Contributions(data, f))
    ensures forall i :: 0 <= i < |gs| ==> gs[i].count >= 1
    ensures RankedAverages(data, f) == SortDesc(SlotAverages(gs))
  {
  }

  /** A series in a fixed key order lists the slots of the keyed reduction in that order. */
  lemma {:induction false} OrderedFromSlots(data: seq<SalaryEntry>, f: Field, order: seq<string>, gs: seq<Group>)
    requires gs == Accumulate(Contributions(data, f))
    ensures forall i :: 0 <= i < |gs| ==> gs[i].count >= 1
    ensures OrderedAverages(data, f, order) == InOrder(order, gs)
  {
  }

  /** The top ten of a ranked series. */
  lemma {:induction false} TopFromSlots(data: seq<SalaryEntry>, f: Field, gs: seq<Group>)
    requires gs == Accumulate(Contributions(data, f))
    ensures forall i :: 0 <= i < |gs| ==> gs[i].count >= 1
    ensures TopAverages(data, f) == Take(SortDesc(SlotAverages(gs)), TopCount)
  {
    RankedFromSlots(data, f, gs);
  }

  /** The work-type series is the sorted counts of the counting reduction. */
  lemma {:induction false} CountsFromSlots(data: seq<SalaryEntry>, gs: seq<Group>)
    requires gs == Accumulate(Occurrences(data, WorkType))
    ensures WorkTypeDistribution(data) == SortDesc(CountEntries(gs))
  {
  }

  /** The city series is the top ten of the reduction over the admitted cities. */
  lemma {:induction false} CitiesFromSlots(data: seq<SalaryEntry>, cities: seq<string>, gs: seq<Group>)
    requires gs == Accumulate(Contributions(Filter(data, CityFilter(cities)), City))
    ensures forall i :: 0 <= i < |gs| ==> gs[i].count >= 1
    ensures CityAverageSalary(data, cities) == Take(SortDesc(SlotAverages(gs)), TopCount)
  {
    TopFromSlots(Filter(data, CityFilter(cities)), City, gs);
  }

  /** The route handler: the six `reduce` loops over the filtered records, each read back
      as the route does, and the overall average computed in one pass. */
  method HandleStats(q: Query, data: seq<SalaryEntry>) returns (s: Stats)
    ensures s == GetStats(q, data)
  {
    var filtered := FilterData(q, data);
    FilterAll(filtered, AnyRecord());
    var avg := CalculateAvgSalary(filtered);
    var experience := ReduceSalaries(filtered, Experience, AnyRecord());
    OrderedFromSlots(filtered, Experience, ExperienceOrder, experience);
    var sizes := ReduceSalaries(filtered, CompanySize, AnyRecord());
    OrderedFromSlots(filtered, CompanySize, CompanySizeOrder, sizes);
    var workTypes := CountWorkTypes(filtered);
    CountsFromSlots(filtered, workTypes);
    var positions := ReduceSalaries(filtered, Position, AnyRecord());
    RankedFromSlots(filtered, Position, positions);
    var companies := ReduceSalaries(filtered, Company, AnyRecord());
    TopFromSlots(filtered, Company, companies);
    var cities := ReduceSalaries(filtered, City, CityFilter(TurkishCities));
    CitiesFromSlots(filtered, TurkishCities, cities);
    s := Stats(
      SortDesc(SlotAverages(positions)),
      InOrder(ExperienceOrder, experience),
      InOrder(CompanySizeOrder, sizes),
      SortDesc(CountEntries(workTypes)),
      Take(SortDesc(SlotAverages(companies)), TopCount),
      Take(SortDesc(SlotAverages(cities)), TopCount),
      avg);
  }

  /** Under a specific position parameter, only that position contributes. */
  lemma {:induction false} OnlySelectedPosition(q: Query, data: seq<SalaryEntry>, k: string)
    requires !Unconstrained(q.position)
    requires Contributes(FilterData(q, data), Position, k)
    ensures Some(k) == q.position
  {
    var r :| r in FilterData(q, data) && FieldOf(r, Position) == Some(k) && EntrySalary(r).Some?;
    assert r.position == q.position;
  }

  /** A specific position parameter leaves at most that position in the position series. */
  lemma {:induction false} PositionParamNarrowsSeries(q: Query, data: seq<SalaryEntry>)
    requires !Unconstrained(q.position)
    ensures forall k :: k in Names(GetStats(q, data).positionAverageSalary) ==> Some(k) == q.position
    ensures |GetStats(q, data).positionAverageSalary| <= 1
  {
    var es := RankedAverages(FilterData(q, data), Position);
    assert GetStats(q, data).positionAverageSalary == es;
    forall k | k in Names(es) ensures k == q.position.value {
      OnlySelectedPosition(q, data, k);
    }
    DistinctConstant(Names(es), q.position.value);
  }

  /** Answers in other currencies do not influence the statistics. */
  lemma {:induction false} StatsIgnoreOtherCurrencies(q: Query, data: seq<SalaryEntry>)
    ensures GetStats(q, Filter(data, InLira)) == GetStats(q, data)
  {
    OnlyLiraSelected(q, data);
  }

  /** `?position=all` and `?position=` answer as if the parameter were absent, and so for level. */
  lemma {:induction false} WildcardParamsAnswerAsAbsent(q: Query, data: seq<SalaryEntry>)
    ensures Unconstrained(q.position) ==> GetStats(q, data) == GetStats(q.(position := None), data)
    ensures Unconstrained(q.level) ==> GetStats(q, data) == GetStats(q.(level := None), data)
  {
    UnconstrainedParamsIgnored(q, data);
  }
}
