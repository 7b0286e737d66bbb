/** The `reduce` accumulators of the handlers: a JavaScript object used as an
    insertion-ordered map from a key to `{ total, count }`, read back with
    `Object.entries`, averaged with `Math.round(total / count)` and ordered with a
    stable `sort((a, b) => b.value - a.value)` or by a fixed list of keys. */
module Groups {
  import opened Wrappers
  import opened Seqs
  import opened Numbers

  /** One addition to an accumulator: the key and the amount added to its total. */
  type Contribution = (string, real)

  /** One accumulator slot, `acc[key] = { total, count }`. */
  datatype Group = Group(key: string, total: real, count: nat)

  /** One element of a chart series, `{ name, value }`. */
  datatype Entry = Entry(name: string, value: int)

  function Keys(gs: seq<Group>): seq<string>
  {
    seq(|gs|, i requires 0 <= i < |gs| => gs[i].key)
  }

  function ContributionKeys(cs: seq<Contribution>): seq<string>
  {
    seq(|cs|, i requires 0 <= i < |cs| => cs[i].0)
  }

  lemma {:induction false} ContributionKeysAppend(a: seq<Contribution>, b: seq<Contribution>)
    ensures ContributionKeys(a + b) == ContributionKeys(a) + ContributionKeys(b)
  {
    var l, r := ContributionKeys(a + b), ContributionKeys(a) + ContributionKeys(b);
    assert |l| == |r|;
    forall i | 0 <= i < |l| ensures l[i] == r[i] {
      if i < |a| {
        assert (a + b)[i] == a[i];
      } else {
        assert (a + b)[i] == b[i - |a|];
      }
    }
  }

  function Names(es: seq<Entry>): seq<string>
  {
    seq(|es|, i requires 0 <= i < |es| => es[i].name)
  }

  lemma {:induction false} NamesCons(e: Entry, rest: seq<Entry>)
    ensures Names([e] + rest) == [e.name] + Names(rest)
    ensures Names([e] + rest)[1..] == Names(rest)
  {
    assert Names([e] + rest) == [e.name] + Names(rest);
  }

  /** The amounts contributed under key `k`, in contribution order. */
  function ValuesFor(cs: seq<Contribution>, k: string): seq<real>
  {
    if |cs| == 0 then []
    else ValuesFor(cs[..|cs| - 1], k) + (if cs[|cs| - 1].0 == k then [cs[|cs| - 1].1] else [])
  }

  lemma {:induction false} ValuesForAppend(a: seq<Contribution>, b: seq<Contribution>, k: string)
    ensures ValuesFor(a + b, k) == ValuesFor(a, k) + ValuesFor(b, k)
    decreases |b|
  {
    if |b| == 0 {
      assert a + b == a;
    } else {
      assert (a + b)[..|a + b| - 1] == a + b[..|b| - 1];
      ValuesForAppend(a, b[..|b| - 1], k);
    }
  }

  /** Some amount is contributed under `k` exactly when `k` is one of the contribution keys. */
  lemma {:induction false} ValuesForPresent(cs: seq<Contribution>, k: string)
    ensures |ValuesFor(cs, k)| > 0 <==> k in ContributionKeys(cs)
  {
    if |cs| > 0 {
      var init := cs[..|cs| - 1];
      ValuesForPresent(init, k);
      assert ContributionKeys(cs) == ContributionKeys(init) + [cs[|cs| - 1].0];
    }
  }

  /** The slot holding key `k`, if the accumulator has one (`acc[k]` is truthy). */
  function Find(gs: seq<Group>, k: string): (r: Option<nat>)
    ensures r.Some? ==> r.value < |gs| && gs[r.value].key == k
    ensures r.None? <==> k !in Keys(gs)
  {
    if |gs| == 0 then None
    else if gs[0].key == k then
      assert Keys(gs)[0] == k;
      Some(0)
    else
      assert Keys(gs) == [gs[0].key] + Keys(gs[1..]);
      match Find(gs[1..], k)
      case None => None
      case Some(i) => Some(i + 1)
  }

  /** One step of the reduction: create the slot on first sight of the key, then add. */
  function Add(gs: seq<Group>, c: Contribution): seq<Group>
  {
    match Find(gs, c.0)
    case Some(i) => gs[i := Group(c.0, gs[i].total + c.1, gs[i].count + 1)]
    case None => gs + [Group(c.0, c.1, 1)]
  }

  /** A step keeps the existing slots' keys and appends the key on its first sight. */
  lemma {:induction false} AddKeys(gs: seq<Group>, c: Contribution)
    requires forall i :: 0 <= i < |gs| ==> gs[i].count >= 1
    ensures Keys(Add(gs, c)) == if c.0 in Keys(gs) then Keys(gs) else Keys(gs) + [c.0]
    ensures forall i :: 0 <= i < |Add(gs, c)| ==> Add(gs, c)[i].count >= 1
  {
    var r := Add(gs, c);
    match Find(gs, c.0)
    case Some(i) =>
      assert Keys(r) == Keys(gs);
    case None =>
      assert Keys(r) == Keys(gs) + [c.0];
  }

  lemma {:induction false} ContributionKeysSnoc(cs: seq<Contribution>)
    requires |cs| > 0
    ensures ContributionKeys(cs)[..|cs| - 1] == ContributionKeys(cs[..|cs| - 1])
    ensures ContributionKeys(cs)[|cs| - 1] == cs[|cs| - 1].0
  {
  }

  /** The whole reduction. The slots come in order of the first contribution of their
      key, which is the order `Object.entries` reports for non-numeric keys. */
  function Accumulate(cs: seq<Contribution>): (gs: seq<Group>)
    ensures Keys(gs) == Dedup(ContributionKeys(cs))
    ensures forall i :: 0 <= i < |gs| ==> gs[i].count >= 1
  {
    if |cs| == 0 then []
    else
      var acc := Accumulate(cs[..|cs| - 1]);
      ContributionKeysSnoc(cs);
      AddKeys(acc, cs[|cs| - 1]);
      Add(acc, cs[|cs| - 1])
  }

  /** The reduction is a left fold: one more contribution is one more `Add`. */
  lemma {:induction false} AccumulateStep(cs: seq<Contribution>, c: Contribution)
    ensures Accumulate(cs + [c]) == Add(Accumulate(cs), c)
  {
    assert (cs + [c])[..|cs|] == cs;
  }

  /** Every slot holds the sum and the number of the amounts contributed under its key. */
  lemma {:induction false} AccumulateTotals(cs: seq<Contribution>)
    ensures forall i :: 0 <= i < |Accumulate(cs)| ==>
      Accumulate(cs)[i].count == |ValuesFor(cs, Accumulate(cs)[i].key)|
      && Accumulate(cs)[i].total == Sum(ValuesFor(cs, Accumulate(cs)[i].key))
  {
    if |cs| > 0 {
      var init := cs[..|cs| - 1];
      var c := cs[|cs| - 1];
      var acc := Accumulate(init);
      AccumulateTotals(init);
      var r := Accumulate(cs);
      assert Distinct(Keys(acc));
      forall i | 0 <= i < |r|
        ensures r[i].count == |ValuesFor(cs, r[i].key)| && r[i].total == Sum(ValuesFor(cs, r[i].key))
      {
        var k := r[i].key;
        if i < |acc| && acc[i].key != c.0 {
          assert r[i] == acc[i];
          assert ValuesFor(cs, k) == ValuesFor(init, k);
        } else if i < |acc| {
          assert Keys(acc)[i] == c.0;
          assert Find(acc, c.0) == Some(i) by {
            var j := Find(acc, c.0).value;
            assert Keys(acc)[i] == Keys(acc)[j];
          }
          assert ValuesFor(cs, k) == ValuesFor(init, k) + [c.1];
          assert (ValuesFor(init, k) + [c.1])[..|ValuesFor(init, k)|] == ValuesFor(init, k);
        } else {
          assert c.0 !in Keys(acc);
          ValuesForPresent(init, c.0);
          assert ValuesFor(cs, k) == [c.1];
          assert [c.1][..0] == [];
        }
      }
    }
  }

  /** `Math.round(total / count)` for one slot. */
  function AverageOf(g: Group): int
    requires g.count >= 1
  {
    Round(g.total / g.count as real)
  }

  /** Each entry's value is the rounded mean of the amounts contributed under its name. */
  ghost predicate RoundedMeans(es: seq<Entry>, cs: seq<Contribution>)
  {
    forall i :: 0 <= i < |es| ==>
      |ValuesFor(cs, es[i].name)| > 0 && es[i].value == Round(Mean(ValuesFor(cs, es[i].name)))
  }

  /** `Object.entries(acc).map(([name, { total, count }]) => ({ name, value: Math.round(total / count) }))`:
      one entry per distinct key, in first-contribution order, holding that key's rounded mean. */
  function GroupAverages(cs: seq<Contribution>): (es: seq<Entry>)
    ensures Names(es) == Dedup(ContributionKeys(cs))
    ensures RoundedMeans(es, cs)
  {
    var gs := Accumulate(cs);
    AccumulateTotals(cs);
    var es := SlotAverages(gs);
    assert Names(es) == Keys(gs);
    es
  }

  /** The `{ name, value: Math.round(total / count) }` entries of the slots. */
  function SlotAverages(gs: seq<Group>): seq<Entry>
    requires forall i :: 0 <= i < |gs| ==> gs[i].count >= 1
  {
    seq(|gs|, i requires 0 <= i < |gs| => Entry(gs[i].key, AverageOf(gs[i])))
  }

  /** The rounded-mean entries of the slots whose key appears in `order`, listed in the
      order of `order` (`order.filter(k => acc[k]).map(...)`). */
  function InOrder(order: seq<string>, gs: seq<Group>): (es: seq<Entry>)
    requires forall i :: 0 <= i < |gs| ==> gs[i].count >= 1
    ensures IsSubsequence(Names(es), order)
    ensures forall k :: k in Names(es) <==> k in order && k in Keys(gs)
    ensures forall i :: 0 <= i < |es| ==>
      Find(gs, es[i].name).Some? && es[i].value == AverageOf(gs[Find(gs, es[i].name).value])
  {
    if |order| == 0 then []
    else
      var rest := InOrder(order[1..], gs);
      ConsMembers(order);
      assert [order[0]] + order[1..] == order;
      match Find(gs, order[0])
      case None =>
        SubsequenceSkip(Names(rest), order[1..], order[0]);
        rest
      case Some(j) =>
        var e := Entry(order[0], AverageOf(gs[j]));
        NamesCons(e, rest);
        [e] + rest
  }

  /** Ordering by a fixed key list: the names are a subsequence of the list, a name
      appears exactly when the list has it and something was contributed under it, and
      each value is the rounded mean of that name's amounts. */
  function CanonicalAverages(order: seq<string>, cs: seq<Contribution>): (es: seq<Entry>)
    ensures IsSubsequence(Names(es), order)
    ensures forall k :: k in Names(es) <==> k in order && k in ContributionKeys(cs)
    ensures RoundedMeans(es, cs)
  {
    var gs := Accumulate(cs);
    AccumulateTotals(cs);
    InOrder(order, gs)
  }

  /** Non-increasing by value. */
  predicate SortedDesc(es: seq<Entry>)
  {
    forall i, j :: 0 <= i < j < |es| ==> es[i].value >= es[j].value
  }

  /** The entries of `es` whose value is `v`, in order. */
  function ValueClass(es: seq<Entry>, v: int): seq<Entry>
  {
    if |es| == 0 then [] else (if es[0].value == v then [es[0]] else []) + ValueClass(es[1..], v)
  }

  lemma {:induction false} ValueClassCons(x: Entry, rest: seq<Entry>, v: int)
    ensures ValueClass([x] + rest, v) == (if x.value == v then [x] else []) + ValueClass(rest, v)
  {
    assert ([x] + rest)[0] == x;
    assert ([x] + rest)[1..] == rest;
  }

  lemma {:induction false} ValueClassAppend(a: seq<Entry>, b: seq<Entry>, v: int)
    ensures ValueClass(a + b, v) == ValueClass(a, v) + ValueClass(b, v)
    decreases |a|
  {
    if |a| == 0 {
      assert a + b == b;
    } else {
      var head := if a[0].value == v then [a[0]] else [];
      assert a + b == [a[0]] + (a[1..] + b);
      ValueClassCons(a[0], a[1..] + b, v);
      ValueClassAppend(a[1..], b, v);
      assert ValueClass(a, v) == head + ValueClass(a[1..], v);
    }
  }

  lemma {:induction false} ValueClassEmpty(es: seq<Entry>, v: int)
    requires forall i :: 0 <= i < |es| ==> es[i].value < v
    ensures ValueClass(es, v) == []
    decreases |es|
  {
    if |es| > 0 {
      ValueClassEmpty(es[1..], v);
    }
  }

  /** Places `e` after every leading entry whose value is at least `e.value`. */
  function Insert(e: Entry, s: seq<Entry>): (r: seq<Entry>)
    ensures multiset(r) == multiset(s) + multiset{e}
  {
    if |s| == 0 || s[0].value < e.value then [e] + s
    else
      assert s == [s[0]] + s[1..];
      [s[0]] + Insert(e, s[1..])
  }

  /** Nothing inserted after `s[0]` exceeds it. */
  lemma {:induction false} InsertBelowHead(e: Entry, s: seq<Entry>)
    requires SortedDesc(s) && |s| > 0 && s[0].value >= e.value
    ensures forall j :: 0 <= j < |Insert(e, s[1..])| ==> Insert(e, s[1..])[j].value <= s[0].value
  {
    var t := Insert(e, s[1..]);
    forall j | 0 <= j < |t| ensures t[j].value <= s[0].value {
      assert t[j] in multiset(s[1..]) + multiset{e};
      if t[j] in multiset(s[1..]) {
        var k :| 0 <= k < |s[1..]| && s[1..][k] == t[j];
        assert s[k + 1] == t[j];
      }
    }
  }

  /** A head no smaller than a non-increasing tail gives a non-increasing list. */
  lemma {:induction false} SortedCons(x: Entry, t: seq<Entry>)
    requires SortedDesc(t)
    requires forall j :: 0 <= j < |t| ==> t[j].value <= x.value
    ensures SortedDesc([x] + t)
  {
    var r := [x] + t;
    forall i, j | 0 <= i < j < |r| ensures r[i].value >= r[j].value {
      assert r[j] == t[j - 1];
      if i > 0 {
        assert r[i] == t[i - 1];
      }
    }
  }

  /** Inserting into a non-increasing list keeps it non-increasing. */
  lemma {:induction false} InsertSorted(e: Entry, s: seq<Entry>)
    requires SortedDesc(s)
    ensures SortedDesc(Insert(e, s))
    decreases |s|
  {
    if |s| == 0 || s[0].value < e.value {
      SortedCons(e, s);
    } else {
      assert SortedDesc(s[1..]);
      InsertSorted(e, s[1..]);
      InsertBelowHead(e, s);
      SortedCons(s[0], Insert(e, s[1..]));
    }
  }

  /** A stable sort, non-increasing by value: `array.sort((a, b) => b.value - a.value)`. */
  function SortDesc(es: seq<Entry>): (r: seq<Entry>)
    ensures SortedDesc(r)
    ensures multiset(r) == multiset(es)
  {
    if |es| == 0 then []
    else
      assert es == es[..|es| - 1] + [es[|es| - 1]];
      var sorted := SortDesc(es[..|es| - 1]);
      InsertSorted(es[|es| - 1], sorted);
      Insert(es[|es| - 1], sorted)
  }

  /** Inserting keeps the entries of each value in their previous order, `e` last among its equals. */
  lemma {:induction false} InsertStable(e: Entry, s: seq<Entry>, v: int)
    requires SortedDesc(s)
    ensures ValueClass(Insert(e, s), v) == ValueClass(s, v) + (if e.value == v then [e] else [])
    decreases |s|
  {
    if |s| == 0 || s[0].value < e.value {
      assert Insert(e, s) == [e] + s;
      ValueClassCons(e, s, v);
      if e.value == v {
        ValueClassEmpty(s, v);
      }
    } else {
      var t := Insert(e, s[1..]);
      assert Insert(e, s) == [s[0]] + t;
      InsertStable(e, s[1..], v);
      ValueClassCons(s[0], t, v);
    }
  }

  lemma {:induction false} ValueClassSingle(e: Entry, v: int)
    ensures ValueClass([e], v) == if e.value == v then [e] else []
  {
    ValueClassCons(e, [], v);
    var none: seq<Entry> := [];
    assert [e] + none == [e];
  }

  /** The sort is stable: entries of equal value keep their input order. */
  lemma {:induction false} SortStable(es: seq<Entry>, v: int)
    ensures ValueClass(SortDesc(es), v) == ValueClass(es, v)
  {
    if |es| > 0 {
      var init, last := es[..|es| - 1], es[|es| - 1];
      assert es == init + [last];
      var sorted := SortDesc(init);
      assert SortDesc(es) == Insert(last, sorted);
      SortStable(init, v);
      InsertStable(last, sorted, v);
      ValueClassAppend(init, [last], v);
      ValueClassSingle(last, v);
    }
  }

  /** Sorting keeps the rounded-mean property, since it only permutes the entries. */
  lemma {:induction false} SortKeepsRoundedMeans(es: seq<Entry>, cs: seq<Contribution>)
    requires RoundedMeans(es, cs)
    ensures RoundedMeans(SortDesc(es), cs)
  {
    var r := SortDesc(es);
    forall i | 0 <= i < |r|
      ensures |ValuesFor(cs, r[i].name)| > 0 && r[i].value == Round(Mean(ValuesFor(cs, r[i].name)))
    {
      assert r[i] in multiset(es);
    }
  }

  lemma {:induction false} InsertNames(e: Entry, s: seq<Entry>)
    ensures multiset(Names(Insert(e, s))) == multiset(Names(s)) + multiset{e.name}
    decreases |s|
  {
    if |s| == 0 || s[0].value < e.value {
      assert Names([e] + s) == [e.name] + Names(s);
    } else {
      InsertNames(e, s[1..]);
      var t := Insert(e, s[1..]);
      assert Names([s[0]] + t) == [s[0].name] + Names(t);
      assert Names(s) == [s[0].name] + Names(s[1..]);
    }
  }

  lemma {:induction false} NamesSnoc(init: seq<Entry>, e: Entry)
    ensures Names(init + [e]) == Names(init) + [e.name]
  {
  }

  /** Sorting only permutes the names. */
  lemma {:induction false} SortKeepsNames(es: seq<Entry>)
    ensures multiset(Names(SortDesc(es))) == multiset(Names(es))
  {
    if |es| > 0 {
      var init, last := es[..|es| - 1], es[|es| - 1];
      assert es == init + [last];
      SortKeepsNames(init);
      InsertNames(last, SortDesc(init));
      NamesSnoc(init, last);
    }
  }

  /** `slice(0, n)` of a non-increasing list with distinct names keeps the largest
      values: no entry whose name was dropped exceeds any entry kept. */
  lemma {:induction false} TopKeepsLargest(es: seq<Entry>, n: nat)
    requires SortedDesc(es) && Distinct(Names(es))
    ensures SortedDesc(Take(es, n)) && Distinct(Names(Take(es, n)))
    ensures forall j :: 0 <= j < |es| && es[j].name !in Names(Take(es, n)) ==> |Take(es, n)| == n
    ensures forall j, i :: 0 <= j < |es| && es[j].name !in Names(Take(es, n)) && 0 <= i < |Take(es, n)| ==>
      es[j].value <= Take(es, n)[i].value
  {
    var top := Take(es, n);
    assert Names(top) == Names(es)[..|top|];
    forall j | 0 <= j < |es| && es[j].name !in Names(top)
      ensures j >= |top|
    {
      assert Names(es)[j] == es[j].name;
    }
  }
  /** A name left out of the first `n` entries sits at an index whose value is no more
      than any kept value, and then `n` entries are kept. */
  lemma {:induction false} LeftOutIndex(es: seq<Entry>, n: nat, k: string) returns (j: nat)
    requires SortedDesc(es) && Distinct(Names(es))
    requires k in Names(es) && k !in Names(Take(es, n))
    ensures j < |es| && es[j].name == k
    ensures |Take(es, n)| == n
    ensures forall i :: 0 <= i < |Take(es, n)| ==> es[j].value <= Take(es, n)[i].value
  {
    TopKeepsLargest(es, n);
    j :| 0 <= j < |es| && Names(es)[j] == k;
  }


  /** The sum of the values of a list of entries. */
  function EntrySum(es: seq<Entry>): int
  {
    if |es| == 0 then 0 else es[0].value + EntrySum(es[1..])
  }

  lemma {:induction false} EntrySumAppend(a: seq<Entry>, b: seq<Entry>)
    ensures EntrySum(a + b) == EntrySum(a) + EntrySum(b)
    decreases |a|
  {
    if |a| == 0 {
      assert a + b == b;
    } else {
      assert (a + b)[1..] == a[1..] + b;
      EntrySumAppend(a[1..], b);
    }
  }

  lemma {:induction false} EntrySumUpdate(es: seq<Entry>, i: nat, e: Entry)
    requires i < |es|
    ensures EntrySum(es[i := e]) == EntrySum(es) - es[i].value + e.value
    decreases |es|
  {
    if i > 0 {
      EntrySumUpdate(es[1..], i - 1, e);
      assert es[i := e][1..] == es[1..][i - 1 := e];
    }
  }

  /** The `{ name, value: count }` entries of the slots. */
  function CountEntries(gs: seq<Group>): seq<Entry>
  {
    seq(|gs|, i requires 0 <= i < |gs| => Entry(gs[i].key, gs[i].count))
  }

  lemma {:induction false} EntrySumSingle(e: Entry)
    ensures EntrySum([e]) == e.value
  {
    assert [e][1..] == [];
  }

  /** One step of the reduction adds one to the total count. */
  lemma {:induction false} AddCountsOne(acc: seq<Group>, c: Contribution)
    ensures EntrySum(CountEntries(Add(acc, c))) == EntrySum(CountEntries(acc)) + 1
  {
    var before := CountEntries(acc);
    var after := CountEntries(Add(acc, c));
    match Find(acc, c.0)
    case Some(i) =>
      assert after == before[i := Entry(c.0, acc[i].count + 1)];
      EntrySumUpdate(before, i, Entry(c.0, acc[i].count + 1));
    case None =>
      assert after == before + [Entry(c.0, 1)];
      EntrySumAppend(before, [Entry(c.0, 1)]);
      EntrySumSingle(Entry(c.0, 1));
  }

  /** Every contribution is counted in exactly one slot. */
  lemma {:induction false} AccumulateCountsAll(cs: seq<Contribution>)
    ensures EntrySum(CountEntries(Accumulate(cs))) == |cs|
  {
    if |cs| > 0 {
      var init := cs[..|cs| - 1];
      var c := cs[|cs| - 1];
      assert Accumulate(cs) == Add(Accumulate(init), c);
      AccumulateCountsAll(init);
      AddCountsOne(Accumulate(init), c);
    }
  }

  /** `Object.entries(acc)` of a counting accumulator `acc[k] = (acc[k] || 0) + 1`: one
      entry per distinct key, in first-contribution order, holding the number of
      contributions under that key; the counts add up to the number of contributions. */
  function GroupCounts(cs: seq<Contribution>): (es: seq<Entry>)
    ensures Names(es) == Dedup(ContributionKeys(cs))
    ensures forall i :: 0 <= i < |es| ==> es[i].value == |ValuesFor(cs, es[i].name)|
    ensures EntrySum(es) == |cs|
  {
    var gs := Accumulate(cs);
    AccumulateTotals(cs);
    AccumulateCountsAll(cs);
    var es := CountEntries(gs);
    assert Names(es) == Keys(gs);
    es
  }

  lemma {:induction false} InsertSum(e: Entry, s: seq<Entry>)
    ensures EntrySum(Insert(e, s)) == EntrySum(s) + e.value
    decreases |s|
  {
    if |s| == 0 || s[0].value < e.value {
      assert ([e] + s)[1..] == s;
    } else {
      InsertSum(e, s[1..]);
      assert ([s[0]] + Insert(e, s[1..]))[1..] == Insert(e, s[1..]);
    }
  }

  /** Sorting keeps the sum of the values. */
  lemma {:induction false} SortKeepsSum(es: seq<Entry>)
    ensures EntrySum(SortDesc(es)) == EntrySum(es)
  {
    if |es| > 0 {
      var init, last := es[..|es| - 1], es[|es| - 1];
      assert es == init + [last];
      var sorted := SortDesc(init);
      assert SortDesc(es) == Insert(last, sorted);
      SortKeepsSum(init);
      InsertSum(last, sorted);
      EntrySumAppend(init, [last]);
      EntrySumSingle(last);
    }
  }
}
