# Salary aggregation model

This project models the four API route handlers of the software-developer salary site
(`yazilimci-maaslari`). It covers the statistics route (`/api/salary-stats`), the
technology-stack route (`/api/salary-stats/tech-stack`), the raw-data route
(`/api/salary-data`) and the position × experience grid
(`/api/salary-stats/position-experience`).

Each handler receives the survey records and the query parameters and does four pure
steps:

- selects records by position, level and currency;
- turns the salary text (`"10.000 - 20.000"`, `"45.000"`) into a number;
- groups the records by a key and averages each group;
- orders the result in a fixed bucket order, by descending value, or by descending value
  cut to the first ten.

The modules follow that structure:

| module | file | contents |
|---|---|---|
| `Wrappers` | wrappers.dfy | `Option` and `Result` |
| `Seqs` | seqs.dfy | filtering, counting, subsequences, de-duplication |
| `Text` | text.dfy | `trim`, ASCII `toLowerCase`, `includes`, `indexOf`, `split`, character stripping and first replacement |
| `Numbers` | numbers.dfy | `parseFloat`, `Math.round`, sums, means, and the `NaN`-propagating mean |
| `Records` | records.dfy | the salary record, its fields, the request-parameter tests, and the running-mean loop shared by two routes |
| `SalaryText` | salary_text.dfy | the three salary readings the routes use |
| `Groups` | groups.dfy | insertion-ordered accumulators, canonical-order output, the stable descending sort, top-N truncation |
| `SalaryStats` | salary_stats.dfy | the statistics route |
| `TechStack` | tech_stack.dfy | the alias table and the technology route |
| `SalaryData` | salary_data.dfy | the raw-data route |
| `PositionExperience` | position_experience.dfy | the position × experience grid |

The model represents data as follows:

- A record's optional string fields are `Option<string>`. "Truthy" means present and not empty.
- A number that reads as `NaN` is `None`.
- A handler that throws, because it reads the `salary` of a record that has none, returns `Failure` with the route's error message.
- `parseFloat` is a stated abstraction. It skips leading white space, then reads an optional sign, digits, and an optional `.` followed by digits. It returns `None` when no digit is read.
- `Math.round(x)` is `(x + 0.5).Floor` over `real`.
- The accumulators keyed by name are association lists in insertion order.
- `Array.prototype.sort` is a stable descending insertion sort.

Three routes have both a function and a method. The function states the answer. The method computes it with the route's own loops, and the two are proved equal:

- the statistics route: one loop per `reduce` and the running average;
- the raw-data route: the running mean and the `Set` loop;
- the grid route: the row and grid loops and the cell sum.

The technology route is stated as a function only.

## Model

| member | source | states |
|---|---|---|
| SalaryStats.FilterData | app/api/salary-stats/route.ts:22-27 | The kept records are an order-preserving subsequence of the input, and their number is the number of input records that pass, so every passing record is kept as often as it occurs. A record is kept exactly when its currency is the Turkish Lira label, whatever the request says, and its position and level equal the parameters. Each of those two tests applies only when its parameter is non-empty and not `all`. |
| SalaryStats.UnconstrainedParamsIgnored | app/api/salary-stats/route.ts:23-24 | An empty parameter or `all` selects exactly what an absent parameter selects. |
| SalaryStats.OnlyLiraSelected | app/api/salary-stats/route.ts:25 | Removing all non-Lira records beforehand changes nothing. |
| SalaryStats.AverageSalary | app/api/salary-stats/route.ts:30-47 | `calculateAvgSalary` is 0 when no salary parses, including for no records at all. |
| SalaryStats.RunningAverage | app/api/salary-stats/route.ts:31-46 | The loop returns 0 when no salary reads as a number. Otherwise it returns the rounded mean of exactly the salaries that read as numbers. |
| SalaryStats.CalculateAvgSalary | app/api/salary-stats/route.ts:30-47 | The route's loop computes `AverageSalary`. |
| SalaryStats.AverageSalaryBetween | app/api/salary-stats/route.ts:46 | The average lies between the rounded minimum and the rounded maximum of the parsed salaries. |
| SalaryStats.AverageIgnoresUnparseable | app/api/salary-stats/route.ts:37-43 | Adding a record whose salary is missing or does not parse leaves the average unchanged, wherever it is inserted. |
| SalaryStats.AverageOfEqualSalaries | app/api/salary-stats/route.ts:46 | When every parsed salary is `v`, the average is `round(v)`. |
| SalaryStats.KeyedSalaries | app/api/salary-stats/route.ts:50-63 | The amounts accumulated under key `k` are exactly the parsed salaries of the records whose field is `k`, in record order. |
| SalaryStats.ContributionKeysIff | app/api/salary-stats/route.ts:52-57 | A key gets an accumulator exactly when it is non-empty and some record with that key has a parseable salary. |
| SalaryStats.OrderedAverages | app/api/salary-stats/route.ts:76-81 | The experience and company-size series list, in canonical order, exactly the canonical buckets that some record contributes to. Each value is the average of that bucket's records. Labels outside the order are dropped. |
| SalaryStats.RankedAverages | app/api/salary-stats/route.ts:148-153 | The position series is sorted by non-increasing value. It has one entry for each contributed key and none for anything else. Each value is the average of that key's records. |
| SalaryStats.RankedTiesInFirstAppearanceOrder | app/api/salary-stats/route.ts:148-153 | Entries with equal values keep the order in which their keys first appeared (stable sort). |
| SalaryStats.TopAverages | app/api/salary-stats/route.ts:171-177 | The company series has at most ten entries. It is sorted by non-increasing value and has no repeated names. Every entry is a contributed key holding its bucket's average. |
| SalaryStats.TopAveragesAreLargest | app/api/salary-stats/route.ts:176-177 | A contributed key that is left out implies the list is full, and its average is no greater than any kept value. |
| SalaryStats.CityAverageSalary | app/api/salary-stats/route.ts:180-214 | The city series has at most ten entries, sorted, with distinct names. Every name is in the city allow-list. Each value is the average of all that city's records. |
| SalaryStats.CityContributes | app/api/salary-stats/route.ts:195 | A city key exists only for an allow-listed city that has a parseable salary. |
| SalaryStats.CityBucketsUnrestricted | app/api/salary-stats/route.ts:195 | For an allow-listed city, applying the allow-list first does not change that city's records. |
| SalaryStats.OccurrencesCount | app/api/salary-stats/route.ts:117-123 | Each work type is counted once per record carrying it. |
| SalaryStats.WorkTypeDistribution | app/api/salary-stats/route.ts:117-130 | The work-type counts are sorted by non-increasing value and have distinct names. They sum to the number of records with a non-empty work type, whether or not their salary parses. |
| SalaryStats.WorkTypeNames | app/api/salary-stats/route.ts:119-120 | A work type is listed exactly when it is non-empty and some record carries it. |
| SalaryStats.WorkTypeCounts | app/api/salary-stats/route.ts:120 | Each listed count is the number of records with that work type. |
| SalaryStats.GetStats | app/api/salary-stats/route.ts:216-229 | The response's `avg` is `calculateAvgSalary` of the selected records. The company and city series have at most ten entries. The experience and company-size series follow their canonical orders. |
| SalaryStats.ReduceRecord | app/api/salary-stats/route.ts:50-62 | One record's step of a keyed `reduce` (truthy key and salary, a salary that parses, and for cities an allow-listed city) adds exactly that record's contribution to the accumulator. |
| SalaryStats.ReduceSalaries | app/api/salary-stats/route.ts:50-63 | The record-by-record `reduce` ends with the accumulator of all admitted records' contributions, in record order. |
| SalaryStats.CountWorkTypes | app/api/salary-stats/route.ts:117-123 | The counting `reduce` ends with one slot per work type, bumped once per record carrying it. |
| SalaryStats.HandleStats | app/api/salary-stats/route.ts:16-229 | The six `reduce` loops, read back by key order, by sort, or by sort and `slice(0, 10)`, and the running average give exactly `GetStats`. |
| SalaryStats.PositionParamNarrowsSeries | app/api/salary-stats/route.ts:133-153 | With a position parameter, the position series names at most that one position. |
| SalaryStats.StatsIgnoreOtherCurrencies | app/api/salary-stats/route.ts:25 | Records in other currencies never influence any series. |
| SalaryStats.WildcardParamsAnswerAsAbsent | app/api/salary-stats/route.ts:23-24 | An empty or `all` parameter gives the same response as no parameter. |
| TechStack.Tokens | app/api/salary-stats/tech-stack/route.ts:128 | There is one token per comma-separated part, and token `i` is part `i` trimmed and lower-cased. No token starts or ends with white space, and none contains a comma or an upper-case letter. |
| TechStack.AnyIncluded | app/api/salary-stats/tech-stack/route.ts:133 | A token matches exactly when one of the aliases is a substring of it. |
| TechStack.NextJsNeverMatches | app/api/salary-stats/tech-stack/route.ts:36-38 | Every NextJS alias starts with a capital letter, so no lower-cased token matches NextJS. |
| TechStack.SapAbapOnlyViaAbap | app/api/salary-stats/tech-stack/route.ts:103-106 | A lower-cased token matches SAP / ABAP exactly when it contains `abap`. The other three aliases are never used. |
| TechStack.AnyCMatchesCCpp | app/api/salary-stats/tech-stack/route.ts:55-58 | Any token containing the letter `c` counts for C / C++. |
| TechStack.JavaScriptAlsoCounts | app/api/salary-stats/tech-stack/route.ts:23-58 | A token containing `javascript` counts for Java, for JavaScript, and for C / C++. |
| TechStack.TechContributions | app/api/salary-stats/tech-stack/route.ts:123-145 | Only names from the table receive amounts. |
| TechStack.SkippedRecordAddsNothing | app/api/salary-stats/tech-stack/route.ts:124-126 | A record with no tech stack, no salary or an unparseable salary can be removed without changing the result. |
| TechStack.TechStackIgnoresOtherCurrencies | app/api/salary-stats/tech-stack/route.ts:118 | Non-Lira records never influence the result. |
| TechStack.TechSlot | app/api/salary-stats/tech-stack/route.ts:130-139 | A technology receives each record's salary once per token of that record that matches it. |
| TechStack.TechSlotCount | app/api/salary-stats/tech-stack/route.ts:130-139 | A technology's count is the number of matching (record, token) pairs. |
| TechStack.TechStackAverages | app/api/salary-stats/tech-stack/route.ts:147-152 | The output is sorted by non-increasing value, with distinct names from the table. Each value is the rounded mean of the amounts accumulated for its name. |
| TechStack.TechStackSalary | app/api/salary-stats/tech-stack/route.ts:115-152 | The route's output is sorted, with distinct names, all from the allowed technologies. |
| TechStack.TechStackValues | app/api/salary-stats/tech-stack/route.ts:147-151 | Every value is `round(total / count)` over the pairs of a table technology, with at least one pair. |
| TechStack.TechReportedIff | app/api/salary-stats/tech-stack/route.ts:134-152 | A technology is reported exactly when it has at least one matching pair. |
| TechStack.PairCountPositive | app/api/salary-stats/tech-stack/route.ts:124-138 | A counted record with one matching token gives its technology a pair. |
| TechStack.AllowedNamesDistinct | app/api/salary-stats/tech-stack/route.ts:18-107 | The 22 canonical names are pairwise different. |
| TechStack.NoNextJsPairs | app/api/salary-stats/tech-stack/route.ts:128-138 | No dataset gives NextJS a pair. |
| TechStack.NextJsNeverReported | app/api/salary-stats/tech-stack/route.ts:123-152 | NextJS is absent from every response. |
| TechStack.Folded | app/api/salary-stats/tech-stack/route.ts:18-107 | Gives a technology the lower-cased forms of its aliases, keeping its name. |
| TechStack.FoldAll | app/api/salary-stats/tech-stack/route.ts:18-107 | Folds every technology, keeping the names. |
| TechStack.CaseInsensitiveTechStackSalary | app/api/salary-stats/tech-stack/route.ts:115-152 | The route with the folded table is sorted, with distinct names from the table. |
| TechStack.FoldedNextJsMatches | app/api/salary-stats/tech-stack/route.ts:36-38 | With folded aliases, a token containing `next` matches NextJS. |
| TechStack.FoldedSapMatches | app/api/salary-stats/tech-stack/route.ts:103-106 | With folded aliases, a token containing `sap` matches SAP / ABAP. |
| TechStack.CaseInsensitiveNextJsReported | app/api/salary-stats/tech-stack/route.ts:123-152 | With the folded table, a selected record with a token such as `next.js` makes NextJS reported. |
| SalaryData.Param | app/api/salary-data/route.ts:24-26 | `get(name) \|\| fallback` uses the fallback exactly when the parameter is missing or empty. |
| SalaryData.DataFilter | app/api/salary-data/route.ts:24-39 | The kept records are an order-preserving subsequence, and their number is the number of records that pass. Missing position and level accept everything, and so does `all`. A missing currency means the Turkish Lira, `all` accepts any currency, and any other value demands equality. |
| SalaryData.DefaultCurrencyIsStatsFilter | app/api/salary-data/route.ts:24-39 | Without a currency parameter, this route selects exactly the records the statistics route selects. |
| SalaryData.DataAverage | app/api/salary-data/route.ts:63-84 | The average is 0 for no records. The route fails with its error message exactly when a selected record has no salary. |
| SalaryData.DataAverageNaN | app/api/salary-data/route.ts:73-83 | The average is `NaN` exactly when every salary is present and one salary, or one half of a range, does not parse. |
| SalaryData.DataAverageBetween | app/api/salary-data/route.ts:80-83 | When all midpoints lie between two bounds, the average lies between their roundings. |
| SalaryData.DataAverageOfOne | app/api/salary-data/route.ts:69-83 | A single record averages to its midpoint, rounded. |
| SalaryData.CalculateAvgSalary | app/api/salary-data/route.ts:63-84 | The route's loop computes `DataAverage`, failing at the first missing salary. |
| SalaryData.UniqueValues | app/api/salary-data/route.ts:86-94 | The values have no repeats. A value is listed exactly when some record carries it, a missing field counting as one value. |
| SalaryData.UniqueValuesFirstOccurrence | app/api/salary-data/route.ts:89-93 | The values come in the order of their first occurrence. |
| SalaryData.GetUniqueValues | app/api/salary-data/route.ts:86-94 | The route's `Set` loop computes `UniqueValues`. |
| SalaryData.GetSalaryData | app/api/salary-data/route.ts:33-59 | The route fails, with its message, exactly when a selected record has no salary. Otherwise it returns the selected records, `totalCount` is their number, and there are no more distinct positions than records. |
| SalaryData.HandleSalaryData | app/api/salary-data/route.ts:21-61 | The handler computes `GetSalaryData`. |
| PositionExperience.Narrow | app/api/salary-stats/position-experience/route.ts:12-18 | One optional filter step keeps an order-preserving subsequence whose length is the number of records that pass its test. A missing, empty or `all` parameter keeps everything. |
| PositionExperience.PositionFilter | app/api/salary-stats/position-experience/route.ts:10-18 | The two filter steps keep an order-preserving subsequence of the records that match both parameters. |
| PositionExperience.SequentialFiltersCombine | app/api/salary-stats/position-experience/route.ts:10-18 | Filtering twice equals filtering once by the conjunction. |
| PositionExperience.CellRecords | app/api/salary-stats/position-experience/route.ts:34-39 | A cell holds exactly the records with that position, that experience and the Turkish Lira currency, in order, each as often as it occurs. |
| PositionExperience.CellSalary | app/api/salary-stats/position-experience/route.ts:41-51 | A cell fails, with the route's message, exactly when one of its records has no salary. |
| PositionExperience.CellNaN | app/api/salary-stats/position-experience/route.ts:43-51 | A cell is `NaN` exactly when all its salaries are present and one of them does not parse. |
| PositionExperience.CellBetween | app/api/salary-stats/position-experience/route.ts:41-51 | When all first-component amounts lie between two bounds, the cell lies between their roundings. |
| PositionExperience.CellAverage | app/api/salary-stats/position-experience/route.ts:41-52 | The route's loop computes `CellSalary`. |
| PositionExperience.Row | app/api/salary-stats/position-experience/route.ts:33-53 | A row succeeds exactly when every cell does. It then has one cell per experience level, in order. A failure carries the error of a failing cell. |
| PositionExperience.Grid | app/api/salary-stats/position-experience/route.ts:32-59 | The grid succeeds exactly when every row does. It then has one row per position, in order. A failure carries the error of a failing row. |
| PositionExperience.GridCells | app/api/salary-stats/position-experience/route.ts:32-59 | Cell `(i, j)` of a successful grid is labelled with experience `j` and holds that cell's value. |
| PositionExperience.GridFails | app/api/salary-stats/position-experience/route.ts:32-59 | The grid fails exactly when some cell fails, and it carries that cell's error. |
| PositionExperience.CellFails | app/api/salary-stats/position-experience/route.ts:34-44 | A cell fails exactly when one of its records lacks a salary. |
| PositionExperience.PositionExperienceSalaries | app/api/salary-stats/position-experience/route.ts:20-59 | A successful response has exactly three positions. |
| PositionExperience.PositionExperienceCells | app/api/salary-stats/position-experience/route.ts:20-59 | Row `i` is the `i`-th fixed position. It has exactly eight cells, in the fixed experience order, each the cell average of the filtered records. |
| PositionExperience.PositionExperienceFails | app/api/salary-stats/position-experience/route.ts:32-59 | The route fails, with its message, exactly when a filtered record in one of the 24 cells has no salary. |
| PositionExperience.UnlistedPositionGivesZeros | app/api/salary-stats/position-experience/route.ts:12-47 | A position parameter other than the three fixed positions and `all` makes every cell 0. |
| PositionExperience.ConstantGrid | app/api/salary-stats/position-experience/route.ts:32-59 | A grid whose cells all succeed with one value is filled with that value. |
| PositionExperience.BuildRow | app/api/salary-stats/position-experience/route.ts:33-53 | The row loop computes `Row`. |
| PositionExperience.BuildGrid | app/api/salary-stats/position-experience/route.ts:32-59 | The grid loop computes `Grid`. |
| PositionExperience.HandlePositionExperience | app/api/salary-stats/position-experience/route.ts:4-74 | The handler computes `PositionExperienceSalaries`. |
| SalaryText.LocaleNumberReadsLowerBound | app/api/salary-stats/route.ts:38 | The statistics reading of `"lo - hi"` is `lo`, the lower bound. |
| SalaryText.LocaleNumberOfDigitRange | app/api/salary-stats/route.ts:38 | A range whose `.`-stripped text is `"lo - hi"` reads as `lo`, so `"10.000 - 20.000"` gives 10000. |
| SalaryText.ThousandsLocaleNumber | app/api/salary-stats/route.ts:38 | A number written with a thousands dot reads as its digits. |
| SalaryText.RangeMidpointOfRange | app/api/salary-data/route.ts:69-75 | The midpoint reading of `"lo - hi"` is `(lo + hi) / 2`. |
| SalaryText.RangeMidpointOfSingle | app/api/salary-data/route.ts:76-78 | A salary without a range reads as itself. |
| SalaryText.RangeMidpointOfParts | app/api/salary-data/route.ts:69-75 | Two parts whose `.`-stripped text is `lo` and `hi` have midpoint `(lo + hi) / 2`. |
| SalaryText.ThousandsRangeMidpoint | app/api/salary-data/route.ts:69-75 | `"10.000 - 20.000"`, and every range written with thousands dots, gives its midpoint (15000). |
| SalaryText.FirstComponentOfRange | app/api/salary-stats/position-experience/route.ts:44 | The grid reading of `"lo - hi"` is `lo`. |
| SalaryText.ThousandsFirstComponent | app/api/salary-stats/position-experience/route.ts:44 | `"10.000 - 20.000"` gives 10000. |
| SalaryText.DecimalCommaFirstComponent | app/api/salary-stats/position-experience/route.ts:44 | A decimal comma between digits is stripped like a thousands separator, so `"1234,56"` reads as 123456. |
| SalaryText.GroupedDecimalFirstComponent | app/api/salary-stats/position-experience/route.ts:44 | A thousands dot and a decimal comma together are both stripped, so `"1.234,56"` reads as 123456. |
| SalaryText.FirstComponentOfParts | app/api/salary-stats/position-experience/route.ts:44 | The text before the first `" - "` is read once its `.` and `,` are removed. The rest of the text is ignored. |
| SalaryText.FirstComponentOfSingle | app/api/salary-stats/position-experience/route.ts:44 | Text without `" - "` is read whole once its `.` and `,` are removed. |
| SalaryText.LocaleNumberPlain | app/api/salary-stats/route.ts:38 | Text without `.` and `,` is passed to `parseFloat` unchanged. |
| SalaryText.LocaleNumberOfDigits | app/api/salary-stats/route.ts:38 | Text that becomes a whole number once its `.` are removed reads as that number. |
| SalaryText.LocaleNumberReadsNat | app/api/salary-stats/route.ts:38 | Plain digits read as the number they write. |
| SalaryText.RangeMidpointOfSplit | app/api/salary-data/route.ts:69-75 | When the split gives exactly two parts that read as numbers, the result is their midpoint. |
| Numbers.ParseFloatReadsDigits | app/api/salary-stats/route.ts:38 | `parseFloat` reads a leading run of digits and ignores everything after it, when the next character is neither a digit nor `.`. |
| Numbers.ParseFloatReadsNatText | app/api/salary-stats/route.ts:38 | `parseFloat` reads plain digits as the number they write when what follows is empty or starts with neither a digit nor `.`. |
| Numbers.ParseFloatNeedsDigits | app/api/salary-stats/route.ts:39 | A text without digits is `NaN`. |
| Numbers.Round | app/api/salary-stats/route.ts:46 | `Math.round(x)` is the integer within half of `x`, with halves rounding up. |
| Numbers.RoundedMeanBetween | app/api/salary-stats/route.ts:46 | The rounded mean lies between the rounded minimum and the rounded maximum. |
| Numbers.MeanOrNaNIsNaN | app/api/salary-data/route.ts:80-83 | A mean without a `NaN` guard is `NaN` exactly when one of its terms is. |
| Numbers.MeanOrNaNBetween | app/api/salary-data/route.ts:83 | Terms within two bounds give a rounded mean within their roundings. |
| Records.RunningMean | app/api/salary-data/route.ts:63-84 | The running loop throws exactly when a record lacks a salary. Otherwise it returns the mean of all the amounts, `NaN`-propagating and divided by the full record count. |
| Text.Trim | app/api/salary-stats/tech-stack/route.ts:128 | `trim` removes the surrounding white space and only that. |
| Text.ToLower | app/api/salary-stats/tech-stack/route.ts:128 | `toLowerCase` keeps the length and leaves no upper-case letter. |
| Text.SplitOn | app/api/salary-data/route.ts:69 | `split` gives at least one part. The parts rejoin to the text, and none contains the separator. Every cut is at the first occurrence of the separator in the text that remains, so the parts are determined. |
| Text.SplitCount | app/api/salary-stats/tech-stack/route.ts:128 | Splitting on a character gives one more part than the text has occurrences of that character. |
| Text.IndexOf | app/api/salary-stats/position-experience/route.ts:44 | `indexOf` finds the first occurrence, or reports that there is none. |
| Text.Strip | app/api/salary-stats/route.ts:38 | `replace(/\./g, "")` removes exactly the given characters. The result is a subsequence of the text, and it is shorter by exactly the number of removed characters, so every other character is kept in place. |
| Text.StripIsFilter | app/api/salary-stats/route.ts:38 | Removing the given characters equals filtering the text for all the other characters. |
| Text.ReplaceFirst | app/api/salary-stats/route.ts:38 | `replace(",", ".")` changes only the first occurrence. |
| Seqs.Filter | app/api/salary-stats/route.ts:22-27 | `Array.prototype.filter` keeps an order-preserving subsequence of the passing elements, every one of them, and as many as pass. |
| Seqs.Dedup | app/api/salary-data/route.ts:86-94 | `[...new Set(values)]` has no repeats and the same members as the input. |
| Seqs.Take | app/api/salary-stats/route.ts:177 | `slice(0, n)` is a prefix of length `n`, or the whole list when it is shorter. |
| Groups.Accumulate | app/api/salary-stats/route.ts:51-63 | The accumulator has one slot per key, in order of first appearance. |
| Groups.GroupAverages | app/api/salary-stats/route.ts:148-152 | Each key is listed once, in first-appearance order, with the rounded mean of its amounts. |
| Groups.CanonicalAverages | app/api/salary-stats/route.ts:76-81 | The keys of a fixed order that occur are listed in that order, each with its rounded mean. |
| Groups.SortDesc | app/api/salary-stats/route.ts:153 | The sort yields a non-increasing permutation. |
| Groups.SortStable | app/api/salary-stats/route.ts:153 | The sort keeps the relative order of equal values. |
| Groups.TopKeepsLargest | app/api/salary-stats/route.ts:176-177 | `slice(0, 10)` of a sorted list keeps entries no smaller than any dropped one. |
| Groups.GroupCounts | app/api/salary-stats/route.ts:117-129 | The counts list each key once, give its number of occurrences, and sum to the number of contributions. |

## Left out

- Loading the dataset (JSON import, `fs.readFileSync`, `JSON.parse`), URL and `searchParams` parsing, and `NextResponse` construction are left out. They are I/O and framework plumbing. The dataset is a parameter, and so is the query, as optional strings.
- The `catch` blocks and `console.error` logging are left out. A throw inside a handler becomes a `Failure` carrying the route's error message. The statistics and technology routes guard every salary read, so they never take that path and their model has no error result.
- `parseFloat` exponents, `Infinity`, hexadecimal forms and IEEE-754 doubles are left out. Sums and means are exact `real` arithmetic, so rounding errors of floating point are not modelled.
- `Numbers.Round`: `Math.round` on `-0` and on values beyond 2^53 is not distinguished, because the model's numbers are exact reals.
- `Text.ToLower`: lower-cases ASCII letters only. Locale-aware and non-ASCII case mapping is not modelled, because the alias table and the tokens that matter are ASCII.
- Keys inherited from `Object.prototype` are not modelled. A key such as `constructor`, `toString` or `__proto__` already makes `acc[key]` truthy before the first record, so the route would not create its slot. In the work-type count, `(acc[key] || 0) + 1` would then concatenate a string. The model treats every key as absent until first seen, and survey answers are not expected to be such names.
- JavaScript object key order for integer-like keys (`"10"` before `"a"`) is not modelled. Accumulators are insertion-ordered lists, which is the order JavaScript gives every key that is not integer-like.
- `Array.prototype.sort` comparators on `NaN` values are not modelled. The sorted series never hold `NaN`, because every accumulated amount parsed.
- The page component (`app/page.tsx`), the layout (`app/layout.tsx`), the sitemap (`app/sitemap.ts`) and the data-preparation script (`public/main.py`) are not part of this model. They are user interface, metadata and one-off tooling, not aggregation logic.
- The salary-data record interface declares every field as a required string. The model still lets fields be absent, since the same JSON file feeds all routes. A missing `salary` then throws, which the model states.
- The alias table lists mixed-case aliases (`Nextjs`, `Next`, `Next.js`, `ABAP`, `SAP`, `Sap`), but the code lower-cases only the token, never the aliases, so a match ignores case only for aliases already in lower case. The model follows the code. The case-insensitive reading is modelled separately under "Findings".

## Findings

| source | as written | input that shows it | evidently intended | confidence | as-written member | corrected member |
|---|---|---|---|---|---|---|
| app/api/salary-stats/tech-stack/route.ts:36-38 | NextJS aliases `Nextjs`, `Next`, `Next.js` are compared with a lower-cased token, so they can never match | a Lira record with salary `"50000"` and tech stack `"Next.js"` (token `next.js`) | the record counts for NextJS | not executed | TechStack.NextJsNeverReported | TechStack.CaseInsensitiveNextJsReported |
| app/api/salary-stats/tech-stack/route.ts:103-106 | SAP / ABAP aliases `ABAP`, `SAP`, `Sap` are compared with a lower-cased token, so only `abap` ever matches | the token `sap hana` | the token counts for SAP / ABAP | not executed | TechStack.SapAbapOnlyViaAbap | TechStack.FoldedSapMatches |
