/** The string primitives the handlers rely on, as ECMAScript defines them:
    `trim`, `toLowerCase`, `includes`/`indexOf`, `split`, `replace` with a
    global regular expression, and `replace` with a plain string. */
module Text {
  import opened Wrappers
  import opened Seqs

  /** The WhiteSpace and LineTerminator code points that `trim` removes and
      `parseFloat` skips. */
  predicate IsWhitespace(c: char)
  {
    || c == ' ' || c == '\t' || c == '\n' || c == '\r' || c == '\U{000B}' || c == '\U{000C}'
    || c == '\U{00A0}' || c == '\U{1680}' || ('\U{2000}' <= c <= '\U{200A}')
    || c == '\U{2028}' || c == '\U{2029}' || c == '\U{202F}' || c == '\U{205F}'
    || c == '\U{3000}' || c == '\U{FEFF}'
  }

  predicate IsDigit(c: char)
  {
    '0' <= c <= '9'
  }

  predicate IsUpper(c: char)
  {
    'A' <= c <= 'Z'
  }

  /** `s` without its leading white space. */
  function TrimStart(s: string): (r: string)
    ensures |r| <= |s| && r == s[|s| - |r|..]
    ensures forall i :: 0 <= i < |s| - |r| ==> IsWhitespace(s[i])
    ensures |r| > 0 ==> !IsWhitespace(r[0])
  {
    if |s| > 0 && IsWhitespace(s[0]) then TrimStart(s[1..]) else s
  }

  /** `s` without its trailing white space. */
  function TrimEnd(s: string): (r: string)
    ensures |r| <= |s| && r == s[..|r|]
    ensures forall i :: |r| <= i < |s| ==> IsWhitespace(s[i])
    ensures |r| > 0 ==> !IsWhitespace(r[|r| - 1])
  {
    if |s| > 0 && IsWhitespace(s[|s| - 1]) then TrimEnd(s[..|s| - 1]) else s
  }

  /** `r` is the part of `s` starting at `i`, and all of `s` around it is white space. */
  predicate Surrounded(s: string, r: string, i: int)
  {
    && 0 <= i <= |s| - |r| && r == s[i..i + |r|]
    && (forall j :: 0 <= j < i ==> IsWhitespace(s[j]))
    && (forall j :: i + |r| <= j < |s| ==> IsWhitespace(s[j]))
  }

  /** What `TrimEnd(TrimStart(s))` leaves is the slice of `s` after its leading white space. */
  lemma {:induction false} TrimBothSlice(s: string)
    ensures var i := |s| - |TrimStart(s)|; TrimEnd(TrimStart(s)) == s[i..i + |TrimEnd(TrimStart(s))|]
  {
    var t := TrimStart(s);
    var r := TrimEnd(t);
    var i := |s| - |t|;
    assert t == s[i..];
    assert r == t[..|r|];
  }

  /** Only white space follows what `TrimEnd(TrimStart(s))` leaves. */
  lemma {:induction false} TrimBothTrailing(s: string)
    ensures forall j :: |s| - |TrimStart(s)| + |TrimEnd(TrimStart(s))| <= j < |s| ==> IsWhitespace(s[j])
  {
    var t := TrimStart(s);
    var r := TrimEnd(t);
    SuffixTail(s, t, |s| - |t|, |r|, IsWhitespace);
  }

  /** What `TrimEnd(TrimStart(s))` leaves sits inside `s` after the leading white space,
      with only white space after it. */
  lemma {:induction false} TrimBothSurrounded(s: string)
    ensures Surrounded(s, TrimEnd(TrimStart(s)), |s| - |TrimStart(s)|)
  {
    TrimBothSlice(s);
    TrimBothTrailing(s);
  }

  /** Neither end of `TrimEnd(TrimStart(s))` is white space. */
  lemma {:induction false} TrimBothEnds(s: string)
    ensures var r := TrimEnd(TrimStart(s)); |r| > 0 ==> !IsWhitespace(r[0]) && !IsWhitespace(r[|r| - 1])
  {
    var t := TrimStart(s);
    var r := TrimEnd(t);
    if |r| > 0 {
      assert r[0] == t[0];
    }
  }

  /** `String.prototype.trim`: the middle of `s` between its leading and trailing white space. */
  function Trim(s: string): (r: string)
    ensures exists i :: Surrounded(s, r, i)
    ensures |r| > 0 ==> !IsWhitespace(r[0]) && !IsWhitespace(r[|r| - 1])
  {
    TrimBothSurrounded(s);
    TrimBothEnds(s);
    TrimEnd(TrimStart(s))
  }

  /** Trimming only removes characters. */
  lemma {:induction false} TrimKeepsChars(s: string, c: char)
    requires c in Trim(s)
    ensures c in s
  {
    var t := TrimStart(s);
    var r := TrimEnd(t);
    assert r == Trim(s);
    var k :| 0 <= k < |r| && r[k] == c;
    assert t[k] == c;
    assert s[|s| - |t| + k] == c;
  }

  /** Case mapping of one character; only the ASCII letters are mapped. */
  function LowerChar(c: char): (d: char)
    ensures !IsUpper(d)
    ensures IsUpper(c) ==> d as int == c as int + 32
    ensures !IsUpper(c) ==> d == c
  {
    if IsUpper(c) then (c as int + 32) as char else c
  }

  /** `String.prototype.toLowerCase`. */
  function ToLower(s: string): (r: string)
    ensures |r| == |s|
    ensures forall i :: 0 <= i < |s| ==> r[i] == LowerChar(s[i])
    ensures forall i :: 0 <= i < |r| ==> !IsUpper(r[i])
  {
    seq(|s|, i requires 0 <= i < |s| => LowerChar(s[i]))
  }

  /** Lower-casing twice is lower-casing once. */
  lemma {:induction false} ToLowerIdempotent(s: string)
    ensures ToLower(ToLower(s)) == ToLower(s)
  {
  }

  /** `pat` occurs in `s` starting at position `i`. */
  predicate OccursAt(s: string, pat: string, i: int)
  {
    0 <= i && i + |pat| <= |s| && s[i..i + |pat|] == pat
  }

  /** Occurrences past the first position are the occurrences in the tail, shifted by one. */
  lemma {:induction false} OccursShift(s: string, pat: string, j: int)
    requires |s| > 0 && j > 0
    ensures OccursAt(s, pat, j) <==> OccursAt(s[1..], pat, j - 1)
  {
    if 0 <= j && j + |pat| <= |s| {
      var here, there := s[j..j + |pat|], s[1..][j - 1..j - 1 + |pat|];
      forall k | 0 <= k < |pat| ensures here[k] == there[k] {
        assert here[k] == s[j + k];
      }
      assert here == there;
    }
  }

  /** `String.prototype.indexOf`: the first position where `pat` occurs, if any. */
  function IndexOf(s: string, pat: string): (r: Option<nat>)
    ensures r.Some? ==> OccursAt(s, pat, r.value)
    ensures r.Some? ==> forall j :: 0 <= j < r.value ==> !OccursAt(s, pat, j)
    ensures r.None? ==> forall j :: !OccursAt(s, pat, j)
    decreases |s|
  {
    if |s| < |pat| then None
    else if s[..|pat|] == pat then Some(0)
    else
      assert !OccursAt(s, pat, 0);
      assert forall j :: j > 0 ==> (OccursAt(s, pat, j) <==> OccursAt(s[1..], pat, j - 1)) by {
        forall j | j > 0 ensures OccursAt(s, pat, j) <==> OccursAt(s[1..], pat, j - 1) {
          OccursShift(s, pat, j);
        }
      }
      match IndexOf(s[1..], pat)
      case None => None
      case Some(i) => Some(i + 1)
  }

  /** `String.prototype.includes`. */
  predicate Includes(s: string, pat: string)
  {
    IndexOf(s, pat).Some?
  }

  /** `includes` holds exactly when the pattern occurs somewhere. */
  lemma {:induction false} IncludesIff(s: string, pat: string)
    ensures Includes(s, pat) <==> exists j :: OccursAt(s, pat, j)
  {
  }

  /** A one-character pattern is included exactly when the character occurs. */
  lemma {:induction false} IncludesChar(s: string, c: char)
    ensures Includes(s, [c]) <==> c in s
  {
    if c in s {
      var k :| 0 <= k < |s| && s[k] == c;
      assert OccursAt(s, [c], k);
    }
    if Includes(s, [c]) {
      var k := IndexOf(s, [c]).value;
      assert s[k] == s[k..k + 1][0];
    }
  }

  /** Every character of an included pattern occurs in the string. */
  lemma {:induction false} IncludedCharsOccur(s: string, pat: string, k: nat)
    requires Includes(s, pat) && k < |pat|
    ensures pat[k] in s
  {
    var i := IndexOf(s, pat).value;
    assert s[i + k] == s[i..i + |pat|][k];
  }

  /** The pieces of `String.prototype.split(sep)` glued back together with `sep`. */
  function Join(parts: seq<string>, sep: string): string
    requires |parts| > 0
  {
    if |parts| == 1 then parts[0] else parts[0] + sep + Join(parts[1..], sep)
  }

  /** Joining a head onto at least one more piece puts one separator between them. */
  lemma {:induction false} JoinCons(head: string, rest: seq<string>, sep: string)
    requires |rest| > 0
    ensures Join([head] + rest, sep) == head + sep + Join(rest, sep)
  {
    assert ([head] + rest)[1..] == rest;
  }

  /** A head without `sep` before pieces without `sep` gives pieces without `sep`. */
  lemma {:induction false} PiecesExclude(head: string, rest: seq<string>, sep: string)
    requires !Includes(head, sep)
    requires forall k :: 0 <= k < |rest| ==> !Includes(rest[k], sep)
    ensures forall k :: 0 <= k < |[head] + rest| ==> !Includes(([head] + rest)[k], sep)
  {
    forall k | 0 <= k < |[head] + rest| ensures !Includes(([head] + rest)[k], sep) {
      if k > 0 {
        assert ([head] + rest)[k] == rest[k - 1];
      }
    }
  }

  /** The text before the first occurrence of `sep` does not include `sep`. */
  lemma {:induction false} BeforeFirstExcludes(s: string, sep: string, i: nat)
    requires |sep| > 0 && IndexOf(s, sep) == Some(i)
    ensures !Includes(s[..i], sep)
  {
    var head := s[..i];
    forall j | OccursAt(head, sep, j) ensures false {
      assert s[j..j + |sep|] == head[j..j + |sep|];
      assert OccursAt(s, sep, j);
    }
  }

  /** `String.prototype.split` with a non-empty string separator: the text between
      successive non-overlapping occurrences of `sep`, scanning from the left. */
  function SplitOn(s: string, sep: string): (parts: seq<string>)
    requires |sep| > 0
    ensures |parts| >= 1
    ensures Join(parts, sep) == s
    ensures forall k :: 0 <= k < |parts| ==> !Includes(parts[k], sep)
    ensures |parts| > 1 ==> IndexOf(s, sep) == Some(|parts[0]|)
    ensures forall k :: 0 <= k < |parts| - 1 ==> IndexOf(Join(parts[k..], sep), sep) == Some(|parts[k]|)
    decreases |s|
  {
    match IndexOf(s, sep)
    case None => [s]
    case Some(i) =>
      var head := s[..i];
      var tail := s[i + |sep|..];
      var rest := SplitOn(tail, sep);
      BeforeFirstExcludes(s, sep, i);
      JoinCons(head, rest, sep);
      PiecesExclude(head, rest, sep);
      assert s == head + sep + tail;
      [head] + rest
  }

  /** The split gives a single piece exactly when the separator does not occur. */
  lemma {:induction false} SplitSingle(s: string, sep: string)
    requires |sep| > 0
    ensures |SplitOn(s, sep)| == 1 <==> !Includes(s, sep)
  {
  }

  /** How many times `c` occurs in `s`. */
  function CharCount(s: string, c: char): nat
  {
    if |s| == 0 then 0 else (if s[0] == c then 1 else 0) + CharCount(s[1..], c)
  }

  lemma {:induction false} CharCountAppend(a: string, b: string, c: char)
    ensures CharCount(a + b, c) == CharCount(a, c) + CharCount(b, c)
    decreases |a|
  {
    if |a| == 0 {
      assert a + b == b;
    } else {
      assert (a + b)[1..] == a[1..] + b;
      CharCountAppend(a[1..], b, c);
    }
  }

  lemma {:induction false} CharCountAbsent(s: string, c: char)
    requires c !in s
    ensures CharCount(s, c) == 0
    decreases |s|
  {
    if |s| > 0 {
      assert s == [s[0]] + s[1..];
      CharCountAbsent(s[1..], c);
    }
  }

  /** Splitting on one character gives one piece more than there are occurrences of it. */
  lemma {:induction false} SplitCount(s: string, c: char)
    ensures |SplitOn(s, [c])| == CharCount(s, c) + 1
    decreases |s|
  {
    IncludesChar(s, c);
    match IndexOf(s, [c])
    case None =>
      CharCountAbsent(s, c);
    case Some(i) =>
      var head, tail := s[..i], s[i + 1..];
      assert s == head + [c] + tail;
      SplitCount(tail, c);
      IncludesChar(head, c);
      assert !Includes(head, [c]) by {
        assert SplitOn(s, [c])[0] == head;
      }
      CharCountAbsent(head, c);
      CharCountAppend(head + [c], tail, c);
      CharCountAppend(head, [c], c);
  }

  /** A string includes every pattern written inside it. */
  lemma {:induction false} IncludesInfix(a: string, pat: string, b: string)
    ensures Includes(a + pat + b, pat)
  {
    var s := a + pat + b;
    assert s[|a|..|a| + |pat|] == pat;
    assert OccursAt(s, pat, |a|);
  }

  /** A pattern whose first character does not occur in `s` is not included in `s`. */
  lemma {:induction false} NotIncluded(s: string, pat: string)
    requires |pat| > 0 && pat[0] !in s
    ensures !Includes(s, pat)
  {
    if Includes(s, pat) {
      IncludedCharsOccur(s, pat, 0);
    }
  }

  /** Splitting `a + sep + b` gives back `a` first, when `a` cannot hold part of `sep`. */
  lemma {:induction false} SplitHead(a: string, b: string, sep: string)
    requires |sep| > 0 && sep[0] !in a
    ensures |SplitOn(a + sep + b, sep)| > 1
    ensures SplitOn(a + sep + b, sep)[0] == a
    ensures SplitOn(a + sep + b, sep)[1..] == SplitOn(b, sep)
  {
    var s := a + sep + b;
    assert OccursAt(s, sep, |a|) by {
      assert s[|a|..|a| + |sep|] == sep;
    }
    var i := IndexOf(s, sep).value;
    assert i == |a|;
    assert s[..i] == a;
    assert s[i + |sep|..] == b;
  }

  /** Splitting `a + sep + b` gives exactly `[a, b]` when neither part can hold part of `sep`. */
  lemma {:induction false} SplitTwo(a: string, b: string, sep: string)
    requires |sep| > 0 && sep[0] !in a && sep[0] !in b
    ensures SplitOn(a + sep + b, sep) == [a, b]
  {
    SplitHead(a, b, sep);
    NotIncluded(b, sep);
    SplitSingle(b, sep);
  }

  /** Splitting a string that cannot hold `sep` gives the string alone. */
  lemma {:induction false} SplitNone(s: string, sep: string)
    requires |sep| > 0 && sep[0] !in s
    ensures SplitOn(s, sep) == [s]
  {
    NotIncluded(s, sep);
    SplitSingle(s, sep);
  }

  /** How many characters of `s` belong to `cs`. */
  function CountIn(s: string, cs: set<char>): nat
  {
    if |s| == 0 then 0 else (if s[0] in cs then 1 else 0) + CountIn(s[1..], cs)
  }

  /** `s.replace(/[cs]/g, "")`: `s` with every character of `cs` removed. What is kept
      stays in order, and exactly the characters outside `cs` are kept. */
  function Strip(s: string, cs: set<char>): (r: string)
    ensures forall c :: c in r <==> c in s && c !in cs
    ensures IsSubsequence(r, s)
    ensures |r| + CountIn(s, cs) == |s|
    decreases |s|
  {
    if |s| == 0 then []
    else
      var rest := Strip(s[1..], cs);
      assert forall c :: c in s <==> c == s[0] || c in s[1..] by {
        assert s == [s[0]] + s[1..];
      }
      if s[0] in cs then
        SubsequenceSkip(rest, s[1..], s[0]);
        assert [s[0]] + s[1..] == s;
        rest
      else
        assert ([s[0]] + rest)[1..] == rest;
        [s[0]] + rest
  }

  /** The characters `Strip` keeps. */
  function Outside(cs: set<char>): char -> bool
  {
    c => c !in cs
  }

  /** Removing the characters of `cs` is filtering for the others: every occurrence of a
      kept character survives, in place. */
  lemma {:induction false} StripIsFilter(s: string, cs: set<char>)
    ensures Strip(s, cs) == Filter(s, Outside(cs))
    decreases |s|
  {
    if |s| > 0 {
      StripIsFilter(s[1..], cs);
    }
  }

  /** Stripping distributes over concatenation. */
  lemma {:induction false} StripAppend(a: string, b: string, cs: set<char>)
    ensures Strip(a + b, cs) == Strip(a, cs) + Strip(b, cs)
    decreases |a|
  {
    if |a| == 0 {
      assert a + b == b;
    } else {
      assert (a + b)[1..] == a[1..] + b;
      StripAppend(a[1..], b, cs);
    }
  }

  /** A string with no character of `cs` is left as it is. */
  lemma {:induction false} StripNothing(s: string, cs: set<char>)
    requires forall c :: c in s ==> c !in cs
    ensures Strip(s, cs) == s
    decreases |s|
  {
    if |s| > 0 {
      StripNothing(s[1..], cs);
      StripAppend([s[0]], s[1..], cs);
      assert [s[0]] + s[1..] == s;
    }
  }

  /** Removing a separator character splits the work in two. */
  lemma {:induction false} StripAround(a: string, c: char, b: string, cs: set<char>)
    requires c in cs
    ensures Strip(a + [c] + b, cs) == Strip(a, cs) + Strip(b, cs)
  {
    StripAppend(a + [c], b, cs);
    StripAppend(a, [c], cs);
  }

  /** Dropping the head shifts every slice by one. */
  lemma {:induction false} ShiftSlices<T>(s: seq<T>, j: nat)
    requires j + 1 < |s|
    ensures s[..j + 1] == [s[0]] + s[1..][..j]
    ensures s[j + 2..] == s[1..][j + 1..]
  {
  }

  /** `s.replace(a, b)` with a one-character string pattern: only the FIRST `a` is replaced. */
  function ReplaceFirst(s: string, a: char, b: char): (r: string)
    ensures |r| == |s|
    ensures a !in s ==> r == s
    ensures a in s ==> var i := FirstIndex(s, a); r == s[..i] + [b] + s[i + 1..]
  {
    if |s| == 0 then s
    else if s[0] == a then [b] + s[1..]
    else
      var r := [s[0]] + ReplaceFirst(s[1..], a, b);
      if a in s then
        var j := FirstIndex(s[1..], a);
        assert FirstIndex(s, a) == j + 1;
        ShiftSlices(s, j);
        r
      else r
  }
}
