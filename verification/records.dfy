/** The salary survey record and the request-parameter conventions shared by the handlers. */
module Records {
  import opened Wrappers
  import opened Numbers

  /** One survey answer, as loaded from `yazilimci-maaslari.json`. Every field may be
      missing, as the TypeScript interfaces of the statistics routes declare. */
  datatype SalaryEntry = SalaryEntry(
    level: Option<string>,
    position: Option<string>,
    techStack: Option<string>,
    experience: Option<string>,
    gender: Option<string>,
    company: Option<string>,
    companySize: Option<string>,
    workType: Option<string>,
    city: Option<string>,
    currency: Option<string>,
    salary: Option<string>,
    raisePeriod: Option<string>)

  /** The fields the handlers group and filter by. */
  datatype Field = Level | Position | TechStack | Experience | Gender | Company
                 | CompanySize | WorkType | City | Currency | Salary | RaisePeriod

  /** `item[field]`, with the property names of the JSON records. */
  function FieldOf(r: SalaryEntry, f: Field): Option<string>
  {
    match f
    case Level => r.level
    case Position => r.position
    case TechStack => r.techStack
    case Experience => r.experience
    case Gender => r.gender
    case Company => r.company
    case CompanySize => r.companySize
    case WorkType => r.workType
    case City => r.city
    case Currency => r.currency
    case Salary => r.salary
    case RaisePeriod => r.raisePeriod
  }

  /** The records whose field `f` is exactly `k`. */
  function HasKey(f: Field, k: string): SalaryEntry -> bool
  {
    r => FieldOf(r, f) == Some(k)
  }

  /** The records whose field `f` is truthy. */
  function HasField(f: Field): SalaryEntry -> bool
  {
    r => Truthy(FieldOf(r, f))
  }

  /** JavaScript truthiness of an optional string: present and not empty. */
  predicate Truthy(s: Option<string>)
  {
    s.Some? && s.value != ""
  }

  /** The currency label that the statistics routes keep, whatever the request says. */
  const TurkishLira: string := "₺ - Türk Lirası"

  /** The wildcard parameter value. */
  const All: string := "all"

  /** The eight experience buckets, in their canonical order. */
  const ExperienceOrder: seq<string> := [
    "0 - 1 Yıl", "1 - 3 Yıl", "3 - 5 Yıl", "5 - 7 Yıl",
    "7 - 10 Yıl", "10 - 12 Yıl", "12 - 14 Yıl", "15 Yıl ve üzeri"
  ]

  /** A request parameter that constrains nothing: absent, empty or the wildcard. */
  predicate Unconstrained(param: Option<string>)
  {
    !Truthy(param) || param.value == All
  }

  /** `!param || param === "all" || field === param`: an absent, empty or wildcard
      request parameter accepts every record, any other value demands equality. */
  predicate MatchesParam(param: Option<string>, field: Option<string>)
  {
    !Truthy(param) || param.value == All || field == param
  }

  /** The record's currency is the Turkish Lira label. */
  predicate InLira(r: SalaryEntry)
  {
    r.currency == Some(TurkishLira)
  }

  /** Every record has a salary field; reading a missing one throws a `TypeError`. */
  predicate AllSalariesPresent(data: seq<SalaryEntry>)
  {
    forall i :: 0 <= i < |data| ==> data[i].salary.Some?
  }

  /** A record's amount under the salary reading `parse`, `None` for `NaN`. A missing
      salary, which throws before any amount is read, is given `None` as well. */
  function Amount(r: SalaryEntry, parse: string -> Option<real>): Option<real>
  {
    if r.salary.Some? then parse(r.salary.value) else None
  }

  /** The records' amounts, in order. */
  function Amounts(data: seq<SalaryEntry>, parse: string -> Option<real>): (xs: seq<Option<real>>)
    ensures |xs| == |data|
  {
    if |data| == 0 then [] else Amounts(data[..|data| - 1], parse) + [Amount(data[|data| - 1], parse)]
  }

  lemma {:induction false} AmountAt(data: seq<SalaryEntry>, parse: string -> Option<real>, i: nat)
    requires i < |data|
    ensures Amounts(data, parse)[i] == Amount(data[i], parse)
  {
    var init := data[..|data| - 1];
    var r := data[|data| - 1];
    assert Amounts(data, parse) == Amounts(init, parse) + [Amount(r, parse)];
    if i < |init| {
      AmountAt(init, parse, i);
      assert data[i] == init[i];
    } else {
      assert data[i] == r;
    }
  }

  lemma {:induction false} AmountsAll(data: seq<SalaryEntry>, parse: string -> Option<real>)
    ensures forall i :: 0 <= i < |data| ==> Amounts(data, parse)[i] == Amount(data[i], parse)
  {
    forall i | 0 <= i < |data| ensures Amounts(data, parse)[i] == Amount(data[i], parse) {
      AmountAt(data, parse, i);
    }
  }

  /** The mean the salary-data and position-experience routes compute by hand: 0 for no
      records, otherwise one pass adding each record's amount to a total that stays `NaN`
      once it is `NaN`, then `Math.round(total / n)`. `None` when a record has no salary,
      where the route throws. */
  method RunningMean(data: seq<SalaryEntry>, parse: string -> Option<real>) returns (r: Option<Option<int>>)
    ensures r.None? <==> !AllSalariesPresent(data)
    ensures r.Some? ==> r.value == MeanOrNaN(Amounts(data, parse))
  {
    if |data| == 0 {
      return Some(Some(0));
    }
    var xs := Amounts(data, parse);
    var total: Option<real> := Some(0.0);
    var i := 0;
    while i < |data|
      invariant 0 <= i <= |data|
      invariant forall j :: 0 <= j < i ==> data[j].salary.Some?
      invariant total.Some? <==> AllSome(xs[..i]).Some?
      invariant total.Some? ==> total.value == Sum(AllSome(xs[..i]).value)
    {
      var item := data[i];
      if item.salary.None? {
        assert !AllSalariesPresent(data) by {
          assert data[i].salary.None?;
        }
        return None;
      }
      assert forall j :: 0 <= j < i + 1 ==> data[j].salary.Some? by {
        assert data[i] == item;
      }
      var v := parse(item.salary.value);
      AmountAt(data, parse, i);
      RunningTotalStep(xs, i, total);
      total := AddOrNaN(total, v);
      i := i + 1;
    }
    assert xs[..i] == xs;
    r := match total
      case None => Some(None)
      case Some(t) => Some(Some(Round(t / (|data| as real))));
  }
}
