/** The technology route: every technology named in a record's comma-separated stack is
    matched against a fixed table of 22 technologies by substring search on its aliases,
    and each matching technology collects the record's salary once per matching token. */
module TechStack {
  import opened Seqs
  import opened Numbers
  import opened Text
  import opened Records
  import opened Groups
  import opened SalaryStats

  /** One row of the technology table: the reported name and the aliases searched for. */
  datatype Technology = Technology(name: string, aliases: seq<string>)

  const DotNet := Technology(".Net", [".net", "dotnet", "asp.net"])
  const Java := Technology("Java", ["java"])
  const JavaScript := Technology("JavaScript | HTML | CSS", ["javascript", "html", "css", "js"])
  const React := Technology("React", ["react", "reactjs"])
  const NextJs := Technology("NextJS", ["Nextjs", "Next", "Next.js"])
  const Python := Technology("Python", ["python"])
  const NodeJs := Technology("NodeJS", ["node", "node.js", "nodejs"])
  const Angular := Technology("Angular", ["angular", "angularjs"])
  const Vue := Technology("Vue", ["vue", "vue.js", "vuejs"])
  const CCpp := Technology("C / C++", ["c++", "c"])
  const Php := Technology("PHP", ["php"])
  const ReactNative := Technology("React Native", ["react native", "react-native", "React Native"])
  const Kotlin := Technology("Kotlin", ["kotlin"])
  const Go := Technology("Go", ["go", "golang"])
  const Swift := Technology("Swift", ["swift"])
  const Flutter := Technology("Flutter", ["flutter"])
  const Unity := Technology("Unity", ["unity"])
  const ObjectiveC := Technology("Objective C", ["objective c", "objective-c", "objectivec"])
  const Sql := Technology("SQL", ["sql", "mysql", "postgresql", "mssql"])
  const NoSql := Technology("NoSQL", ["nosql", "mongodb", "mongo", "mongoDB"])
  const Ruby := Technology("Ruby", ["ruby", "ruby on rails", "rails"])
  const SapAbap := Technology("SAP / ABAP", ["abap", "ABAP", "SAP", "Sap"])

  /** `ALLOWED_TECHNOLOGIES`, in table order. */
  const AllowedTechnologies: seq<Technology> := [
    DotNet, Java, JavaScript, React, NextJs, Python, NodeJs, Angular, Vue, CCpp, Php,
    ReactNative, Kotlin, Go, Swift, Flutter, Unity, ObjectiveC, Sql, NoSql, Ruby, SapAbap
  ]

  function TechNames(techs: seq<Technology>): seq<string>
  {
    seq(|techs|, i requires 0 <= i < |techs| => techs[i].name)
  }

  // ---------------------------------------------------------------------------
  // Tokens and matching

  /** `tech_stack.split(",").map(tech => tech.trim().toLowerCase())`: one token per
      comma-separated piece, trimmed and lower-cased. */
  function Tokens(ts: string): (tokens: seq<string>)
    ensures |tokens| == CharCount(ts, ',') + 1
    ensures forall i :: 0 <= i < |tokens| ==> ',' !in tokens[i]
    ensures forall i, j :: 0 <= i < |tokens| && 0 <= j < |tokens[i]| ==> !IsUpper(tokens[i][j])
    ensures forall i :: 0 <= i < |tokens| ==> NoOuterBlank(tokens[i])
    ensures |tokens| == |SplitOn(ts, ",")|
    ensures forall i :: 0 <= i < |tokens| ==> tokens[i] == ToLower(Trim(SplitOn(ts, ",")[i]))
  {
    var parts := SplitOn(ts, ",");
    SplitCount(ts, ',');
    var tokens := seq(|parts|, i requires 0 <= i < |parts| => ToLower(Trim(parts[i])));
    forall i | 0 <= i < |tokens| ensures ',' !in tokens[i] {
      TokenHasNoComma(parts[i]);
    }
    forall i | 0 <= i < |tokens| ensures NoOuterBlank(tokens[i]) {
      TokenEndsNotBlank(parts[i], tokens[i]);
    }
    tokens
  }

  /** Lower-casing keeps a trimmed piece's ends free of white space. */
  lemma {:induction false} TokenEndsNotBlank(part: string, token: string)
    requires token == ToLower(Trim(part))
    ensures NoOuterBlank(token)
  {
    var s := Trim(part);
    if |s| > 0 {
      LowerKeepsNonBlank(s[0]);
      LowerKeepsNonBlank(s[|s| - 1]);
    }
  }

  /** The text neither starts nor ends with white space. */
  predicate NoOuterBlank(w: string)
  {
    |w| > 0 ==> !IsWhitespace(w[0]) && !IsWhitespace(w[|w| - 1])
  }

  /** A character that is not white space stays so when lower-cased. */
  lemma {:induction false} LowerKeepsNonBlank(c: char)
    requires !IsWhitespace(c)
    ensures !IsWhitespace(LowerChar(c))
  {
  }

  lemma {:induction false} TokenHasNoComma(part: string)
    requires !Includes(part, ",")
    ensures ',' !in ToLower(Trim(part))
  {
    IncludesChar(part, ',');
    forall c | c in Trim(part) ensures c != ',' {
      TrimKeepsChars(part, c);
    }
  }

  /** `aliases.some(alias => token.includes(alias))`. */
  function AnyIncluded(token: string, aliases: seq<string>): (b: bool)
    ensures b <==> exists i :: 0 <= i < |aliases| && Includes(token, aliases[i])
  {
    if |aliases| == 0 then false
    else
      var rest := AnyIncluded(token, aliases[1..]);
      assert forall i :: 0 < i < |aliases| ==> aliases[i] == aliases[1..][i - 1];
      Includes(token, aliases[0]) || rest
  }

  /** The token counts for technology `t`. */
  predicate Matches(t: Technology, token: string)
  {
    AnyIncluded(token, t.aliases)
  }

  function MatchesTech(t: Technology): string -> bool
  {
    token => Matches(t, token)
  }

  /** A lower-case token never contains an alias that starts with a capital letter. */
  lemma {:induction false} CapitalAliasNeverIncluded(token: string, alias: string)
    requires forall j :: 0 <= j < |token| ==> !IsUpper(token[j])
    requires |alias| > 0 && IsUpper(alias[0])
    ensures !Includes(token, alias)
  {
    if Includes(token, alias) {
      IncludedCharsOccur(token, alias, 0);
    }
  }

  /** All three NextJS aliases start with a capital letter, so no lower-cased token
      ever matches NextJS. */
  lemma {:induction false} NextJsNeverMatches(token: string)
    requires forall j :: 0 <= j < |token| ==> !IsUpper(token[j])
    ensures !Matches(NextJs, token)
  {
    forall i | 0 <= i < |NextJs.aliases| ensures !Includes(token, NextJs.aliases[i]) {
      CapitalAliasNeverIncluded(token, NextJs.aliases[i]);
    }
  }

  /** Of the SAP / ABAP aliases only `abap` is lower-case, so a lower-cased token matches
      SAP / ABAP exactly when it contains `abap`. */
  lemma {:induction false} SapAbapOnlyViaAbap(token: string)
    requires forall j :: 0 <= j < |token| ==> !IsUpper(token[j])
    ensures Matches(SapAbap, token) <==> Includes(token, "abap")
  {
    forall i | 1 <= i < |SapAbap.aliases| ensures !Includes(token, SapAbap.aliases[i]) {
      CapitalAliasNeverIncluded(token, SapAbap.aliases[i]);
    }
  }

  /** The bare alias `c` makes every token with a `c` in it count as C / C++. */
  lemma {:induction false} AnyCMatchesCCpp(token: string)
    requires 'c' in token
    ensures Matches(CCpp, token)
  {
    IncludesChar(token, 'c');
    assert CCpp.aliases[1] == "c";
  }

  /** A token containing `javascript` counts for Java, for JavaScript | HTML | CSS and,
      through its `c`, for C / C++. */
  lemma {:induction false} JavaScriptAlsoCounts(a: string, b: string)
    ensures Matches(Java, a + "javascript" + b)
    ensures Matches(JavaScript, a + "javascript" + b)
    ensures Matches(CCpp, a + "javascript" + b)
  {
    var token := a + "javascript" + b;
    IncludesInfix(a, "javascript", b);
    assert JavaScript.aliases[0] == "javascript";
    assert "javascript" == "java" + "script";
    assert token == a + "java" + ("script" + b);
    IncludesInfix(a, "java", "script" + b);
    assert Java.aliases[0] == "java";
    assert token[|a| + 5] == 'c';
    AnyCMatchesCCpp(token);
  }

  // ---------------------------------------------------------------------------
  // Contributions

  /** The technologies one token matches, in table order, each with salary `v`. */
  function TokenContributions(token: string, techs: seq<Technology>, v: real): seq<Contribution>
  {
    if |techs| == 0 then []
    else (if Matches(techs[0], token) then [(techs[0].name, v)] else []) + TokenContributions(token, techs[1..], v)
  }

  /** All tokens of a record, in order. */
  function TokensContributions(tokens: seq<string>, techs: seq<Technology>, v: real): seq<Contribution>
  {
    if |tokens| == 0 then []
    else TokenContributions(tokens[0], techs, v) + TokensContributions(tokens[1..], techs, v)
  }

  /** A record contributes when its stack is truthy and its salary parses. */
  predicate HasStackAndSalary(r: SalaryEntry)
  {
    Truthy(r.techStack) && EntrySalary(r).Some?
  }

  function RecordContributions(r: SalaryEntry, techs: seq<Technology>): seq<Contribution>
  {
    if HasStackAndSalary(r) then TokensContributions(Tokens(r.techStack.value), techs, EntrySalary(r).value) else []
  }

  /** The whole reduction's contributions, record by record. */
  function TechContributions(data: seq<SalaryEntry>, techs: seq<Technology>): (cs: seq<Contribution>)
    ensures forall k :: k in ContributionKeys(cs) ==> k in TechNames(techs)
  {
    if |data| == 0 then []
    else
      var c := RecordContributions(data[0], techs);
      var rest := TechContributions(data[1..], techs);
      RecordKeysInTable(data[0], techs);
      ContributionKeysAppend(c, rest);
      c + rest
  }

  lemma {:induction false} TokenKeysInTable(token: string, techs: seq<Technology>, v: real)
    ensures forall k :: k in ContributionKeys(TokenContributions(token, techs, v)) ==> k in TechNames(techs)
    decreases |techs|
  {
    if |techs| > 0 {
      var c := if Matches(techs[0], token) then [(techs[0].name, v)] else [];
      TokenKeysInTable(token, techs[1..], v);
      ContributionKeysAppend(c, TokenContributions(token, techs[1..], v));
      assert TechNames(techs) == [techs[0].name] + TechNames(techs[1..]);
      assert c != [] ==> ContributionKeys(c) == [techs[0].name];
    }
  }

  lemma {:induction false} TokensKeysInTable(tokens: seq<string>, techs: seq<Technology>, v: real)
    ensures forall k :: k in ContributionKeys(TokensContributions(tokens, techs, v)) ==> k in TechNames(techs)
    decreases |tokens|
  {
    if |tokens| > 0 {
      TokenKeysInTable(tokens[0], techs, v);
      TokensKeysInTable(tokens[1..], techs, v);
      ContributionKeysAppend(TokenContributions(tokens[0], techs, v), TokensContributions(tokens[1..], techs, v));
    }
  }

  lemma {:induction false} RecordKeysInTable(r: SalaryEntry, techs: seq<Technology>)
    ensures forall k :: k in ContributionKeys(RecordContributions(r, techs)) ==> k in TechNames(techs)
  {
    if HasStackAndSalary(r) {
      TokensKeysInTable(Tokens(r.techStack.value), techs, EntrySalary(r).value);
    }
  }

  lemma {:induction false} TechContributionsAppend(a: seq<SalaryEntry>, b: seq<SalaryEntry>, techs: seq<Technology>)
    ensures TechContributions(a + b, techs) == TechContributions(a, techs) + TechContributions(b, techs)
    decreases |a|
  {
    if |a| > 0 {
      assert (a + b)[0] == a[0];
      assert (a + b)[1..] == a[1..] + b;
      TechContributionsAppend(a[1..], b, techs);
      var c := RecordContributions(a[0], techs);
      assert TechContributions(a + b, techs) == c + TechContributions(a[1..] + b, techs);
      assert TechContributions(a, techs) == c + TechContributions(a[1..], techs);
    } else {
      assert a + b == b;
    }
  }

  /** A record with an empty stack or a salary that does not parse changes nothing. */
  lemma {:induction false} SkippedRecordAddsNothing(a: seq<SalaryEntry>, x: SalaryEntry, b: seq<SalaryEntry>, techs: seq<Technology>)
    requires !HasStackAndSalary(x)
    ensures TechStackAverages(a + [x] + b, techs) == TechStackAverages(a + b, techs)
  {
    TechContributionsAppend(a + [x], b, techs);
    TechContributionsAppend(a, [x], techs);
    TechContributionsAppend(a, b, techs);
    assert TechContributions([x], techs) == [] by {
      assert [x][1..] == [];
    }
    assert TechContributions(a, techs) + [] == TechContributions(a, techs);
  }

  /** Records in other currencies never reach the technology averages. */
  lemma {:induction false} TechStackIgnoresOtherCurrencies(q: Query, data: seq<SalaryEntry>)
    ensures TechStackSalary(q, Filter(data, InLira)) == TechStackSalary(q, data)
  {
    OnlyLiraSelected(q, data);
  }

  // ---------------------------------------------------------------------------
  // Slot contents

  /** `n` copies of `v`. */
  function Repeat(v: real, n: nat): (vs: seq<real>)
    ensures |vs| == n
    ensures forall i :: 0 <= i < n ==> vs[i] == v
  {
    if n == 0 then [] else [v] + Repeat(v, n - 1)
  }

  lemma {:induction false} RepeatAppend(v: real, m: nat, n: nat)
    ensures Repeat(v, m) + Repeat(v, n) == Repeat(v, m + n)
  {
  }

  /** The salaries technology `t` collects: each contributing record's salary, once per
      token of its stack that matches `t`. */
  function WeightedSalaries(data: seq<SalaryEntry>, t: Technology): seq<real>
  {
    if |data| == 0 then []
    else
      var r := data[0];
      (if HasStackAndSalary(r) then Repeat(EntrySalary(r).value, Count(Tokens(r.techStack.value), MatchesTech(t))) else [])
      + WeightedSalaries(data[1..], t)
  }

  /** The number of tokens of a record's stack that count for `t`: none unless the record
      has both a stack and a salary. */
  function RecordPairs(t: Technology): SalaryEntry -> nat
  {
    r => if HasStackAndSalary(r) then Count(Tokens(r.techStack.value), MatchesTech(t)) else 0
  }

  /** The number of (record, token) pairs that count for `t`. */
  function PairCount(data: seq<SalaryEntry>, t: Technology): nat
  {
    Total(data, RecordPairs(t))
  }

  /** The table names are pairwise different and `t` is one of the rows. */
  predicate RowOf(t: Technology, techs: seq<Technology>)
  {
    t in techs && Distinct(TechNames(techs))
  }

  lemma {:induction false} TokenSlotAbsent(token: string, techs: seq<Technology>, v: real, n: string)
    requires n !in TechNames(techs)
    ensures ValuesFor(TokenContributions(token, techs, v), n) == []
  {
    TokenKeysInTable(token, techs, v);
    ValuesForPresent(TokenContributions(token, techs, v), n);
  }

  /** One token adds `v` to `t`'s slot exactly when it matches `t`. */
  lemma {:induction false} TokenSlot(token: string, techs: seq<Technology>, v: real, t: Technology)
    requires RowOf(t, techs)
    ensures ValuesFor(TokenContributions(token, techs, v), t.name) == Repeat(v, if Matches(t, token) then 1 else 0)
    decreases |techs|
  {
    var c := if Matches(techs[0], token) then [(techs[0].name, v)] else [];
    var rest := TokenContributions(token, techs[1..], v);
    ValuesForAppend(c, rest, t.name);
    assert TechNames(techs) == [techs[0].name] + TechNames(techs[1..]);
    assert Distinct(TechNames(techs[1..])) by {
      forall i, j | 0 <= i < j < |techs| - 1 ensures TechNames(techs[1..])[i] != TechNames(techs[1..])[j] {
        assert TechNames(techs)[i + 1] != TechNames(techs)[j + 1];
      }
    }
    if techs[0] == t {
      assert t.name !in TechNames(techs[1..]) by {
        forall i | 0 <= i < |techs| - 1 ensures TechNames(techs[1..])[i] != t.name {
          assert TechNames(techs)[i + 1] != TechNames(techs)[0];
        }
      }
      TokenSlotAbsent(token, techs[1..], v, t.name);
      if c != [] {
        assert c[..0] == [];
      }
    } else {
      assert t in techs[1..] by {
        var i :| 0 <= i < |techs| && techs[i] == t;
        assert techs[1..][i - 1] == t;
      }
      assert techs[0].name != t.name by {
        var i :| 0 <= i < |techs| && techs[i] == t;
        assert TechNames(techs)[i] == t.name && TechNames(techs)[0] == techs[0].name;
      }
      TokenSlot(token, techs[1..], v, t);
      if c != [] {
        assert c[..0] == [];
      }
    }
  }

  lemma {:induction false} TokensSlot(tokens: seq<string>, techs: seq<Technology>, v: real, t: Technology)
    requires RowOf(t, techs)
    ensures ValuesFor(TokensContributions(tokens, techs, v), t.name) == Repeat(v, Count(tokens, MatchesTech(t)))
    decreases |tokens|
  {
    if |tokens| > 0 {
      TokenSlot(tokens[0], techs, v, t);
      TokensSlot(tokens[1..], techs, v, t);
      ValuesForAppend(TokenContributions(tokens[0], techs, v), TokensContributions(tokens[1..], techs, v), t.name);
      RepeatAppend(v, if Matches(t, tokens[0]) then 1 else 0, Count(tokens[1..], MatchesTech(t)));
    }
  }

  /** Technology `t`'s slot holds exactly its weighted salaries: every contributing
      record's salary once per matching token. */
  lemma {:induction false} TechSlot(data: seq<SalaryEntry>, techs: seq<Technology>, t: Technology)
    requires RowOf(t, techs)
    ensures ValuesFor(TechContributions(data, techs), t.name) == WeightedSalaries(data, t)
    decreases |data|
  {
    if |data| > 0 {
      var r := data[0];
      TechSlot(data[1..], techs, t);
      ValuesForAppend(RecordContributions(r, techs), TechContributions(data[1..], techs), t.name);
      if HasStackAndSalary(r) {
        TokensSlot(Tokens(r.techStack.value), techs, EntrySalary(r).value, t);
      }
    }
  }

  /** So `t`'s count is the number of (record, token) pairs that match it. */
  lemma {:induction false} TechSlotCount(data: seq<SalaryEntry>, techs: seq<Technology>, t: Technology)
    requires RowOf(t, techs)
    ensures |ValuesFor(TechContributions(data, techs), t.name)| == PairCount(data, t)
    decreases |data|
  {
    if |data| > 0 {
      TechSlotCount(data[1..], techs, t);
      TechSlot(data, techs, t);
      TechSlot(data[1..], techs, t);
    }
  }

  // ---------------------------------------------------------------------------
  // The route

  /** `techStackSalary` for a table: one entry per technology that collected anything,
      highest rounded mean first, ties in order of first contribution. */
  function TechStackAverages(data: seq<SalaryEntry>, techs: seq<Technology>): (es: seq<Entry>)
    ensures SortedDesc(es)
    ensures Distinct(Names(es))
    ensures forall k :: k in Names(es) ==> k in TechNames(techs)
    ensures RoundedMeans(es, TechContributions(data, techs))
  {
    var cs := TechContributions(data, techs);
    var unsorted := GroupAverages(cs);
    var es := SortDesc(unsorted);
    SortKeepsRoundedMeans(unsorted, cs);
    SortKeepsNames(unsorted);
    DistinctPermutation(Names(unsorted), Names(es));
    forall k | k in Names(es) ensures k in TechNames(techs) {
      assert k in multiset(Names(es));
      assert k in Names(unsorted);
    }
    es
  }

  /** The table's names, in table order. */
  const AllowedNames: seq<string> := [
    ".Net", "Java", "JavaScript | HTML | CSS", "React", "NextJS", "Python", "NodeJS", "Angular",
    "Vue", "C / C++", "PHP", "React Native", "Kotlin", "Go", "Swift", "Flutter", "Unity",
    "Objective C", "SQL", "NoSQL", "Ruby", "SAP / ABAP"]

  lemma AllowedNamesListed()
    ensures TechNames(AllowedTechnologies) == AllowedNames
  {
  }

  /** A number built from a name's first two characters and its length; the table's
      names all have different ones. */
  function NameTag(s: string): int
  {
    if |s| < 2 then 0 else (s[0] as int) * 1000000 + (s[1] as int) * 1000 + |s|
  }

  function NameTags(names: seq<string>): (tags: seq<int>)
    ensures |tags| == |names|
  {
    seq(|names|, i requires 0 <= i < |names| => NameTag(names[i]))
  }

  /** Names whose tags are pairwise different are themselves pairwise different. */
  lemma {:induction false} TagsDistinct(names: seq<string>)
    requires Distinct(NameTags(names))
    ensures Distinct(names)
  {
    forall i, j | 0 <= i < j < |names| ensures names[i] != names[j] {
      assert NameTags(names)[i] != NameTags(names)[j];
    }
  }

  /** The tags of the table's names, in table order. */
  const AllowedTags: seq<int> := [
    46078004, 74097004, 74097023, 82101005, 78101006, 80121006, 78111006, 65110007,
    86117003, 67032007, 80072003, 82101012, 75111006, 71111002, 83119005, 70108007,
    85110005, 79098011, 83081003, 78111005, 82117004, 83065010]

  lemma AllowedTagsListed()
    ensures NameTags(AllowedNames) == AllowedTags
  {
  }

  /** The index of a tag in `AllowedTags`, -1 for none. */
  function AllowedTagPosition(tag: int): int
  {
    if tag == 46078004 then 0 else
    if tag == 74097004 then 1 else
    if tag == 74097023 then 2 else
    if tag == 82101005 then 3 else
    if tag == 78101006 then 4 else
    if tag == 80121006 then 5 else
    if tag == 78111006 then 6 else
    if tag == 65110007 then 7 else
    if tag == 86117003 then 8 else
    if tag == 67032007 then 9 else
    if tag == 80072003 then 10 else
    if tag == 82101012 then 11 else
    if tag == 75111006 then 12 else
    if tag == 71111002 then 13 else
    if tag == 83119005 then 14 else
    if tag == 70108007 then 15 else
    if tag == 85110005 then 16 else
    if tag == 79098011 then 17 else
    if tag == 83081003 then 18 else
    if tag == 78111005 then 19 else
    if tag == 82117004 then 20 else
    if tag == 83065010 then 21 else
    -1
  }

  /** Numbers that a function maps each to its own index are pairwise different. */
  lemma {:induction false} DistinctByPosition(s: seq<int>, pos: int -> int)
    requires forall i :: 0 <= i < |s| ==> pos(s[i]) == i
    ensures Distinct(s)
  {
  }

  lemma AllowedTagsDistinct()
    ensures Distinct(AllowedTags)
  {
    DistinctByPosition(AllowedTags, AllowedTagPosition);
  }

  /** The table's names are pairwise different. */
  lemma AllowedNamesDistinct()
    ensures Distinct(TechNames(AllowedTechnologies))
  {
    AllowedNamesListed();
    AllowedTagsListed();
    AllowedTagsDistinct();
    TagsDistinct(AllowedNames);
  }

  /** The route: the filtered records' technology averages under `ALLOWED_TECHNOLOGIES`. */
  function TechStackSalary(q: Query, data: seq<SalaryEntry>): (es: seq<Entry>)
    ensures SortedDesc(es)
    ensures Distinct(Names(es))
    ensures forall k :: k in Names(es) ==> k in TechNames(AllowedTechnologies)
  {
    TechStackAverages(FilterData(q, data), AllowedTechnologies)
  }

  /** The row of the table that carries name `k`. */
  lemma {:induction false} RowNamed(techs: seq<Technology>, k: string) returns (t: Technology)
    requires k in TechNames(techs)
    ensures t in techs && t.name == k
  {
    var j :| 0 <= j < |techs| && TechNames(techs)[j] == k;
    t := techs[j];
  }

  /** Each reported technology's value is the rounded mean of its weighted salaries. */
  lemma {:induction false} TechAveragesValues(data: seq<SalaryEntry>, techs: seq<Technology>, i: nat)
    requires Distinct(TechNames(techs))
    requires i < |TechStackAverages(data, techs)|
    ensures exists t :: (t in techs && t.name == TechStackAverages(data, techs)[i].name
      && |WeightedSalaries(data, t)| > 0
      && TechStackAverages(data, techs)[i].value == Round(Mean(WeightedSalaries(data, t))))
  {
    var es := TechStackAverages(data, techs);
    var cs := TechContributions(data, techs);
    assert |ValuesFor(cs, es[i].name)| > 0 && es[i].value == Round(Mean(ValuesFor(cs, es[i].name)));
    assert Names(es)[i] == es[i].name;
    var t := RowNamed(techs, es[i].name);
    TechSlot(data, techs, t);
    assert t in techs && t.name == es[i].name;
  }

  /** The route's values, under `ALLOWED_TECHNOLOGIES`. */
  lemma {:induction false} TechStackValues(q: Query, data: seq<SalaryEntry>, i: nat)
    requires i < |TechStackSalary(q, data)|
    ensures exists t :: (t in AllowedTechnologies && t.name == TechStackSalary(q, data)[i].name
      && |WeightedSalaries(FilterData(q, data), t)| > 0
      && TechStackSalary(q, data)[i].value == Round(Mean(WeightedSalaries(FilterData(q, data), t))))
  {
    AllowedNamesDistinct();
    TechAveragesValues(FilterData(q, data), AllowedTechnologies, i);
  }

  /** A technology of the table is reported exactly when some (record, token) pair
      matches it. */
  lemma {:induction false} TechReportedIff(data: seq<SalaryEntry>, techs: seq<Technology>, t: Technology)
    requires RowOf(t, techs)
    ensures t.name in Names(TechStackAverages(data, techs)) <==> PairCount(data, t) > 0
  {
    TechSlotCount(data, techs, t);
    var cs := TechContributions(data, techs);
    ValuesForPresent(cs, t.name);
    var unsorted := GroupAverages(cs);
    SortKeepsNames(unsorted);
    var es := TechStackAverages(data, techs);
    assert t.name in Names(es) <==> t.name in multiset(Names(es));
    assert t.name in Names(unsorted) <==> t.name in multiset(Names(unsorted));
  }

  /** A token matching `t` makes the record's count for `t` positive. */
  lemma {:induction false} TokenCounts(tokens: seq<string>, t: Technology, j: nat)
    requires j < |tokens| && Matches(t, tokens[j])
    ensures Count(tokens, MatchesTech(t)) > 0
  {
    assert tokens[j] in tokens && MatchesTech(t)(tokens[j]);
    CountPositive(tokens, MatchesTech(t));
  }

  /** A record whose stack has a token matching `t` gives `t` a pair. */
  lemma {:induction false} PairCountPositive(data: seq<SalaryEntry>, t: Technology, r: SalaryEntry, j: nat)
    requires r in data && HasStackAndSalary(r)
    requires j < |Tokens(r.techStack.value)| && Matches(t, Tokens(r.techStack.value)[j])
    ensures PairCount(data, t) > 0
  {
    TokenCounts(Tokens(r.techStack.value), t, j);
    TotalPositive(data, RecordPairs(t), r);
  }

  lemma NextJsRow()
    ensures AllowedTechnologies[4] == NextJs
  {
  }

  /** No record's salary ever reaches the NextJS slot, so NextJS is never reported, even
      for a stack that says `Next.js`. */
  lemma {:induction false} NextJsNeverReported(q: Query, data: seq<SalaryEntry>)
    ensures NextJs.name !in Names(TechStackSalary(q, data))
  {
    var filtered := FilterData(q, data);
    AllowedNamesDistinct();
    NextJsRow();
    TechReportedIff(filtered, AllowedTechnologies, NextJs);
    NoNextJsPairs(filtered);
  }

  lemma {:induction false} NoNextJsPairs(data: seq<SalaryEntry>)
    ensures PairCount(data, NextJs) == 0
    decreases |data|
  {
    if |data| > 0 {
      NoNextJsPairs(data[1..]);
      var r := data[0];
      if HasStackAndSalary(r) {
        var tokens := Tokens(r.techStack.value);
        forall token | token in tokens ensures !MatchesTech(NextJs)(token) {
          NextJsNeverMatches(token);
        }
        CountPositive(tokens, MatchesTech(NextJs));
      }
    }
  }

  // ---------------------------------------------------------------------------
  // Case-insensitive aliases

  /** A technology whose aliases are lower-cased, so that matching a lower-cased token is
      case-insensitive as the alias table evidently intends. */
  function Folded(t: Technology): (f: Technology)
    ensures f.name == t.name && |f.aliases| == |t.aliases|
    ensures forall i :: 0 <= i < |t.aliases| ==> f.aliases[i] == ToLower(t.aliases[i])
  {
    Technology(t.name, seq(|t.aliases|, i requires 0 <= i < |t.aliases| => ToLower(t.aliases[i])))
  }

  function FoldAll(techs: seq<Technology>): (fs: seq<Technology>)
    ensures TechNames(fs) == TechNames(techs)
    ensures forall i :: 0 <= i < |techs| ==> fs[i] == Folded(techs[i])
  {
    seq(|techs|, i requires 0 <= i < |techs| => Folded(techs[i]))
  }

  /** With folded aliases, a token matches a technology exactly when it contains the
      lower-cased form of one of its aliases. */
  lemma {:induction false} FoldedMatchesIff(t: Technology, token: string)
    ensures Matches(Folded(t), token) <==> exists i :: 0 <= i < |t.aliases| && Includes(token, ToLower(t.aliases[i]))
  {
  }

  /** The route with the case-insensitive table. */
  function CaseInsensitiveTechStackSalary(q: Query, data: seq<SalaryEntry>): (es: seq<Entry>)
    ensures SortedDesc(es)
    ensures Distinct(Names(es))
    ensures forall k :: k in Names(es) ==> k in TechNames(AllowedTechnologies)
  {
    TechStackAverages(FilterData(q, data), FoldAll(AllowedTechnologies))
  }

  lemma {:induction false} FoldedNextJsMatches(token: string)
    requires Includes(token, "next")
    ensures Matches(Folded(NextJs), token)
  {
    assert ToLower(NextJs.aliases[1]) == "next";
    assert Folded(NextJs).aliases[1] == "next";
  }

  /** With folded aliases, a token containing `sap` (such as `sap hana`) matches
      SAP / ABAP, which the table as written only lets `abap` do. */
  lemma {:induction false} FoldedSapMatches(token: string)
    requires Includes(token, "sap")
    ensures Matches(Folded(SapAbap), token)
  {
    assert ToLower(SapAbap.aliases[2]) == "sap";
    assert Folded(SapAbap).aliases[2] == "sap";
  }

  /** With the case-insensitive table, a selected record whose stack has a token
      containing `next` (such as `next.js`) makes NextJS reported. */
  lemma {:induction false} CaseInsensitiveNextJsReported(q: Query, data: seq<SalaryEntry>, r: SalaryEntry, j: nat)
    requires r in FilterData(q, data) && HasStackAndSalary(r)
    requires j < |Tokens(r.techStack.value)| && Includes(Tokens(r.techStack.value)[j], "next")
    ensures NextJs.name in Names(CaseInsensitiveTechStackSalary(q, data))
  {
    var techs := FoldAll(AllowedTechnologies);
    AllowedNamesDistinct();
    NextJsRow();
    assert techs[4] == Folded(NextJs);
    FoldedNextJsMatches(Tokens(r.techStack.value)[j]);
    PairCountPositive(FilterData(q, data), Folded(NextJs), r, j);
    TechReportedIff(FilterData(q, data), techs, Folded(NextJs));
  }
}
