/** String helpers shared by the Python and JavaScript sides: character
    search (`find`/`rfind`), splitting and joining on a separator
    (`str.split`), substring search and the two placeholder-replacement
    semantics (Python `str.replace`, JavaScript `String.prototype.replace`
    with a string pattern), and ASCII lower-casing. */
module Strings {
  import opened Wrappers

  /** Index of the first `c` in `s`, or -1. */
  function IndexOf(s: string, c: char): (r: int)
    ensures -1 <= r < |s|
    ensures r >= 0 ==> s[r] == c && c !in s[..r]
    ensures r < 0 <==> c !in s
  {
    if |s| == 0 then -1
    else if s[0] == c then 0
    else
      var k := IndexOf(s[1..], c);
      if k < 0 then -1
      else
        assert s[..k + 1] == [s[0]] + s[1..][..k];
        k + 1
  }

  /** Index of the last `c` in `s`, or -1 (Python `rfind`). */
  function LastIndexOf(s: string, c: char): (r: int)
    ensures -1 <= r < |s|
    ensures r >= 0 ==> s[r] == c
    ensures forall j :: r < j < |s| ==> s[j] != c
  {
    LastIndexBelow(s, c, |s|)
  }

  /** Index of the last `c` among the first `n` characters of `s`, or -1. */
  function LastIndexBelow(s: string, c: char, n: nat): (r: int)
    requires n <= |s|
    ensures -1 <= r < n
    ensures r >= 0 ==> s[r] == c
    ensures forall j :: r < j < n ==> s[j] != c
  {
    if n == 0 then -1
    else if s[n - 1] == c then n - 1
    else LastIndexBelow(s, c, n - 1)
  }

  /** The characters of `s` from index `k` on, one at a time: `s[k..]`.
      What they are is stated by `SuffixSplit` and `SuffixAt`, which a proof
      calls where it needs them. */
  function Suffix(s: string, k: nat): (r: string)
    requires k <= |s|
    ensures |r| == |s| - k
    decreases |s| - k
  {
    if k == |s| then [] else [s[k]] + Suffix(s, k + 1)
  }

  /** The prefix before `k` and the suffix from `k` make up `s`. */
  lemma {:induction false} SuffixSplit(s: string, k: nat)
    requires k <= |s|
    ensures s[..k] + Suffix(s, k) == s
    decreases |s| - k
  {
    if k < |s| {
      var t := Suffix(s, k + 1);
      SuffixSplit(s, k + 1);
      assert Suffix(s, k) == [s[k]] + t;
      AppendAssoc(s[..k], [s[k]], t);
      assert s[..k] + [s[k]] == s[..k + 1];
    }
  }

  lemma SuffixAt(s: string, k: nat, i: nat)
    requires k + i < |s|
    ensures Suffix(s, k)[i] == s[k + i]
  {
    SuffixSplit(s, k);
    assert (s[..k] + Suffix(s, k))[k + i] == Suffix(s, k)[i];
  }

  lemma SuffixFirst(s: string, k: int)
    requires 0 <= k <= |s|
    ensures k < |s| ==> Suffix(s, k)[0] == s[k]
  {
    if k < |s| {
      SuffixAt(s, k, 0);
    }
  }

  lemma SuffixZero(s: string)
    ensures Suffix(s, 0) == s
  {
    forall i | 0 <= i < |s|
      ensures Suffix(s, 0)[i] == s[i]
    {
      SuffixAt(s, 0, i);
    }
  }

  /** Dropping the first character and then `j` more drops `j + 1`. */
  lemma SuffixOfTail(s: string, j: nat)
    requires s != [] && j < |s|
    ensures Suffix(s[1..], j) == Suffix(s, j + 1)
  {
    forall i | 0 <= i < |s| - 1 - j
      ensures Suffix(s[1..], j)[i] == Suffix(s, j + 1)[i]
    {
      SuffixAt(s[1..], j, i);
      SuffixAt(s, j + 1, i);
    }
  }

  lemma SuffixChars(s: string, k: nat)
    requires k <= |s|
    ensures forall i :: 0 <= i < |s| - k ==> Suffix(s, k)[i] == s[k + i]
  {
    forall i | 0 <= i < |s| - k
      ensures Suffix(s, k)[i] == s[k + i]
    {
      SuffixAt(s, k, i);
    }
  }

  /** A character absent from `s[k..]` is absent from the suffix. */
  lemma NotInSuffix(s: string, k: nat, c: char)
    requires k <= |s|
    requires forall j :: k <= j < |s| ==> s[j] != c
    ensures c !in Suffix(s, k)
  {
    SuffixChars(s, k);
  }

  lemma SuffixKeepsOut(s: string, k: nat, c: char)
    requires k <= |s| && c !in s
    ensures c !in Suffix(s, k)
  {
    NotInSuffix(s, k, c);
  }

  lemma SuffixOfSuffix(s: string, a: nat, b: nat)
    requires a + b <= |s|
    ensures Suffix(Suffix(s, a), b) == Suffix(s, a + b)
  {
    var x := Suffix(Suffix(s, a), b);
    var y := Suffix(s, a + b);
    forall i | 0 <= i < |y|
      ensures x[i] == y[i]
    {
      SuffixAt(Suffix(s, a), b, i);
      SuffixAt(s, a, b + i);
      SuffixAt(s, a + b, i);
    }
  }

  // ---------------------------------------------------------------------
  // Splitting and joining on one separator character

  /** Python `s.split(c)` for a one-character separator: the pieces between
      separators, empty pieces included. */
  function Split(s: string, c: char): (parts: seq<string>)
    ensures |parts| >= 1
    ensures forall i :: 0 <= i < |parts| ==> c !in parts[i]
    decreases |s|
  {
    var i := IndexOf(s, c);
    if i < 0 then [s] else [s[..i]] + Split(Suffix(s, i + 1), c)
  }

  /** Python `c.join(parts)`. */
  function Join(parts: seq<string>, c: char): string
    requires |parts| >= 1
  {
    if |parts| == 1 then parts[0] else parts[0] + [c] + Join(parts[1..], c)
  }

  /** Joining the pieces of a split gives the original string back. */
  lemma {:induction false} JoinSplit(s: string, c: char)
    ensures Join(Split(s, c), c) == s
    decreases |s|
  {
    var i := IndexOf(s, c);
    if i >= 0 {
      var tail := Suffix(s, i + 1);
      assert Split(s, c) == [s[..i]] + Split(tail, c);
      JoinSplit(tail, c);
      JoinCons(s[..i], Split(tail, c), c);
      SplitAround(s, i);
    }
  }

  lemma JoinCons(a: string, parts: seq<string>, c: char)
    requires |parts| >= 1
    ensures Join([a] + parts, c) == a + [c] + Join(parts, c)
  {
    assert ([a] + parts)[1..] == parts;
  }

  /** A string is what comes before index `i`, the character at `i`, and
      what comes after. */
  lemma SplitAround(s: string, i: nat)
    requires i < |s|
    ensures s[..i] + [s[i]] + Suffix(s, i + 1) == s
  {
    SuffixSplit(s, i + 1);
    assert s[..i + 1] == s[..i] + [s[i]];
  }

  lemma AppendAssoc(a: string, b: string, c: string)
    ensures a + b + c == a + (b + c)
  {
  }

  lemma SuffixOfAppend(a: string, b: string)
    ensures Suffix(a + b, |a|) == b
  {
    var r := Suffix(a + b, |a|);
    SuffixSplit(a + b, |a|);
    assert (a + b)[..|a|] == a;
    assert a + r == a + b;
    assert forall k :: 0 <= k < |r| ==> r[k] == (a + r)[|a| + k];
  }

  /** Splitting a join of separator-free pieces gives the pieces back. */
  lemma {:induction false} SplitJoin(parts: seq<string>, c: char)
    requires |parts| >= 1
    requires forall i :: 0 <= i < |parts| ==> c !in parts[i]
    ensures Split(Join(parts, c), c) == parts
  {
    if |parts| > 1 {
      var rest := Join(parts[1..], c);
      var s := parts[0] + [c] + rest;
      assert Join(parts, c) == s;
      IndexOfAfterFree(parts[0], c, rest);
      assert s[..|parts[0]|] == parts[0];
      SuffixOfAppend(parts[0] + [c], rest);
      assert Split(s, c) == [parts[0]] + Split(rest, c);
      SplitJoin(parts[1..], c);
      assert parts == [parts[0]] + parts[1..];
    } else {
      assert IndexOf(parts[0], c) < 0;
    }
  }

  lemma IndexOfAfterFree(a: string, c: char, b: string)
    requires c !in a
    ensures IndexOf(a + [c] + b, c) == |a|
  {
    var s := a + [c] + b;
    assert s[|a|] == c;
  }

  // ---------------------------------------------------------------------
  // Substring search and placeholder replacement

  /** `pat` occurs in `s` starting at index `i`. */
  predicate OccursAt(s: string, pat: string, i: int) {
    0 <= i && i + |pat| <= |s| && forall k :: 0 <= k < |pat| ==> s[i + k] == pat[k]
  }

  ghost predicate Contains(s: string, pat: string) {
    exists i :: OccursAt(s, pat, i)
  }

  /** `i` is the leftmost occurrence of `pat` in `s`. */
  ghost predicate FirstOccurrence(s: string, pat: string, i: int) {
    OccursAt(s, pat, i) && forall j :: 0 <= j < i ==> !OccursAt(s, pat, j)
  }

  /** Leftmost occurrence of `pat` in `s` at or after `from`. */
  function FindFrom(s: string, pat: string, from: nat): (r: Option<nat>)
    ensures r.Some? ==> from <= r.value && OccursAt(s, pat, r.value)
    ensures r.Some? ==> forall j :: from <= j < r.value ==> !OccursAt(s, pat, j)
    ensures r.None? ==> forall j :: from <= j ==> !OccursAt(s, pat, j)
    decreases |s| - from
  {
    if from + |pat| > |s| then None
    else if OccursAt(s, pat, from) then Some(from)
    else FindFrom(s, pat, from + 1)
  }

  /** Leftmost occurrence of `pat` in `s`. */
  function Find(s: string, pat: string): (r: Option<nat>)
    ensures r.Some? ==> FirstOccurrence(s, pat, r.value)
    ensures r.None? <==> !Contains(s, pat)
  {
    FindFrom(s, pat, 0)
  }

  /** A string that is exactly the pattern: Python puts the replacement
      in its place, JavaScript the expansion of the replacement with the
      whole string as the match and nothing around it. */
  lemma WholeMatchReplaced(pat: string, rep: string)
    requires |pat| > 0
    ensures ReplaceAll(pat, pat, rep) == rep
    ensures ReplaceFirstJs(pat, pat, rep) == Substitute(rep, pat, [], [])
  {
    FindWhole(pat);
    assert Suffix(pat, |pat|) == [];
    assert pat[..0] == [];
    assert Find([], pat) == None;
  }

  /** A non-empty pattern is found at the start of itself. */
  lemma FindWhole(pat: string)
    requires |pat| > 0
    ensures Find(pat, pat) == Some(0)
  {
    assert OccursAt(pat, pat, 0);
  }

  /** JavaScript `s.replace(pat, rep)` with a string pattern: only the
      leftmost occurrence is replaced. */
  function ReplaceFirst(s: string, pat: string, rep: string): (r: string)
    ensures !Contains(s, pat) ==> r == s
    ensures forall i :: FirstOccurrence(s, pat, i) ==>
              r == s[..i] + rep + Suffix(s, i + |pat|)
  {
    match Find(s, pat)
    case None => s
    case Some(i) =>
      FirstOccurrenceUnique(s, pat, i);
      s[..i] + rep + Suffix(s, i + |pat|)
  }

  lemma FirstOccurrenceUnique(s: string, pat: string, i: int)
    requires FirstOccurrence(s, pat, i)
    ensures forall j :: FirstOccurrence(s, pat, j) ==> j == i
  {
  }

  /** Number of non-overlapping occurrences of `pat`, scanning left to right
      (the occurrences Python `str.replace` rewrites). */
  function Count(s: string, pat: string): nat
    requires |pat| > 0
    decreases |s|
  {
    match Find(s, pat)
    case None => 0
    case Some(i) => 1 + Count(Suffix(s, i + |pat|), pat)
  }

  /** Python `s.replace(pat, rep)`: every non-overlapping occurrence, left to
      right, is replaced. */
  function ReplaceAll(s: string, pat: string, rep: string): (r: string)
    requires |pat| > 0
    ensures !Contains(s, pat) ==> r == s
    ensures |r| == |s| + Count(s, pat) * (|rep| - |pat|)
    decreases |s|
  {
    match Find(s, pat)
    case None => s
    case Some(i) =>
      var tail := Suffix(s, i + |pat|);
      var rest := ReplaceAll(tail, pat, rep);
      assert Count(s, pat) == 1 + Count(tail, pat);
      MulStep(Count(tail, pat), |rep| - |pat|);
      assert |s| == i + |pat| + |tail|;
      s[..i] + rep + rest
  }

  lemma MulStep(c: int, d: int)
    ensures (1 + c) * d == d + c * d
  {
  }

  /** Python `s.split(pat)` for a non-empty separator: the text between the
      leftmost non-overlapping occurrences of `pat`. */
  function Pieces(s: string, pat: string): (r: seq<string>)
    requires |pat| > 0
    ensures |r| == Count(s, pat) + 1
    ensures |r| == 1 <==> !Contains(s, pat)
    ensures |r| == 1 ==> r[0] == s
    ensures |r| > 1 ==> FirstOccurrence(s, pat, |r[0]|) && r[0] == s[..|r[0]|]
    decreases |s|
  {
    match Find(s, pat)
    case None => [s]
    case Some(i) => [s[..i]] + Pieces(Suffix(s, i + |pat|), pat)
  }

  /** Python `sep.join(parts)`. */
  function JoinWith(parts: seq<string>, sep: string): string
    requires |parts| >= 1
  {
    if |parts| == 1 then parts[0] else parts[0] + sep + JoinWith(parts[1..], sep)
  }

  lemma JoinWithCons(x: string, parts: seq<string>, sep: string)
    requires |parts| >= 1
    ensures JoinWith([x] + parts, sep) == x + sep + JoinWith(parts, sep)
  {
    assert ([x] + parts)[1..] == parts;
  }

  /** The remainder after the first cut is split the same way. */
  lemma PiecesStep(s: string, pat: string, i: nat)
    requires |pat| > 0 && Find(s, pat) == Some(i)
    ensures Pieces(s, pat) == [s[..i]] + Pieces(Suffix(s, i + |pat|), pat)
  {
  }

  /** Re-joining the pieces with the pattern gives the string back. */
  lemma {:induction false} JoinPiecesWithPattern(s: string, pat: string)
    requires |pat| > 0
    ensures JoinWith(Pieces(s, pat), pat) == s
    decreases |s|
  {
    match Find(s, pat)
    case None =>
    case Some(i) =>
      var tail := Suffix(s, i + |pat|);
      PiecesStep(s, pat, i);
      JoinPiecesWithPattern(tail, pat);
      JoinWithCons(s[..i], Pieces(tail, pat), pat);
      AroundOccurrence(s, pat, i);
  }

  /** A text before a leftmost occurrence holds no occurrence. */
  lemma BeforeFirstIsFree(s: string, pat: string, i: nat)
    requires |pat| > 0 && FirstOccurrence(s, pat, i)
    ensures !Contains(s[..i], pat)
  {
    if Contains(s[..i], pat) {
      var j :| OccursAt(s[..i], pat, j);
      forall k | 0 <= k < |pat|
        ensures s[j + k] == pat[k]
      {
        assert s[..i][j + k] == s[j + k];
      }
      assert OccursAt(s, pat, j) && j < i;
    }
  }

  /** No piece contains the separator. */
  lemma {:induction false} PiecesFree(s: string, pat: string)
    requires |pat| > 0
    ensures forall k :: 0 <= k < |Pieces(s, pat)| ==> !Contains(Pieces(s, pat)[k], pat)
    decreases |s|
  {
    match Find(s, pat)
    case None =>
    case Some(i) =>
      var tail := Suffix(s, i + |pat|);
      PiecesStep(s, pat, i);
      PiecesFree(tail, pat);
      BeforeFirstIsFree(s, pat, i);
      ConsFree(s[..i], Pieces(tail, pat), pat);
  }

  /** A free piece in front of free pieces keeps them all free. */
  lemma ConsFree(x: string, parts: seq<string>, pat: string)
    requires !Contains(x, pat)
    requires forall k :: 0 <= k < |parts| ==> !Contains(parts[k], pat)
    ensures forall k :: 0 <= k < |[x] + parts| ==> !Contains(([x] + parts)[k], pat)
  {
    forall k | 0 <= k < |[x] + parts|
      ensures !Contains(([x] + parts)[k], pat)
    {
      if k > 0 {
        assert ([x] + parts)[k] == parts[k - 1];
      }
    }
  }

  /** Python's `s.replace(pat, rep) == rep.join(s.split(pat))`. */
  lemma {:induction false} ReplaceAllJoinsPieces(s: string, pat: string, rep: string)
    requires |pat| > 0
    ensures ReplaceAll(s, pat, rep) == JoinWith(Pieces(s, pat), rep)
    decreases |s|
  {
    match Find(s, pat)
    case None =>
    case Some(i) =>
      var tail := Suffix(s, i + |pat|);
      PiecesStep(s, pat, i);
      ReplaceAllJoinsPieces(tail, pat, rep);
      JoinWithCons(s[..i], Pieces(tail, pat), rep);
  }

  /** Replacing a pattern by itself changes nothing. */
  lemma {:induction false} ReplaceAllSelf(s: string, pat: string)
    requires |pat| > 0
    ensures ReplaceAll(s, pat, pat) == s
    decreases |s|
  {
    match Find(s, pat)
    case None =>
    case Some(i) =>
      var tail := Suffix(s, i + |pat|);
      ReplaceAllSelf(tail, pat);
      assert ReplaceAll(s, pat, pat) == s[..i] + pat + tail;
      AroundOccurrence(s, pat, i);
  }

  /** An occurrence splits `s` into what precedes it, the pattern, and the
      rest. */
  lemma AroundOccurrence(s: string, pat: string, i: int)
    requires OccursAt(s, pat, i)
    ensures s[..i] + pat + Suffix(s, i + |pat|) == s
  {
    SuffixSplit(s, i + |pat|);
    assert s[..i + |pat|] == s[..i] + pat;
  }

  /** With at most one occurrence the two replacement semantics agree. */
  lemma ReplaceAllAgreesWithFirst(s: string, pat: string, rep: string)
    requires |pat| > 0 && Count(s, pat) <= 1
    ensures ReplaceAll(s, pat, rep) == ReplaceFirst(s, pat, rep)
  {
    match Find(s, pat)
    case None =>
    case Some(i) =>
      var tail := Suffix(s, i + |pat|);
      assert Count(tail, pat) == 0;
      assert Find(tail, pat).None?;
  }

  /** With two or more occurrences, replacing only the first leaves a
      literal occurrence of the pattern in the result. */
  lemma ReplaceFirstLeavesPattern(s: string, pat: string, rep: string)
    requires |pat| > 0 && Count(s, pat) >= 2
    ensures Contains(ReplaceFirst(s, pat, rep), pat)
  {
    var i := Find(s, pat).value;
    CountStep(s, pat, i);
    CountedIsContained(Suffix(s, i + |pat|), pat);
    OccurrenceAfterFirst(s, pat, rep, i);
  }

  /** A pattern counted at least once occurs. */
  lemma CountedIsContained(s: string, pat: string)
    requires |pat| > 0 && Count(s, pat) >= 1
    ensures Contains(s, pat)
  {
  }

  /** An occurrence after the first one survives `ReplaceFirst`. */
  lemma OccurrenceAfterFirst(s: string, pat: string, rep: string, i: int)
    requires FirstOccurrence(s, pat, i) && Contains(Suffix(s, i + |pat|), pat)
    ensures Contains(ReplaceFirst(s, pat, rep), pat)
  {
    var tail := Suffix(s, i + |pat|);
    var k :| OccursAt(tail, pat, k);
    var x := s[..i] + rep;
    assert ReplaceFirst(s, pat, rep) == x + tail;
    OccurrenceInSuffix(x, tail, pat, k);
  }

  lemma CountStep(s: string, pat: string, i: nat)
    requires |pat| > 0 && Find(s, pat) == Some(i)
    ensures Count(s, pat) == 1 + Count(Suffix(s, i + |pat|), pat)
  {
  }

  /** An occurrence in `y` is still an occurrence in `x + y`. */
  lemma OccurrenceInSuffix(x: string, y: string, pat: string, k: int)
    requires OccursAt(y, pat, k)
    ensures OccursAt(x + y, pat, |x| + k)
  {
    assert forall m :: 0 <= m < |pat| ==> (x + y)[|x| + k + m] == pat[m];
  }

  lemma MultipleDiffers(c: int, d: int)
    requires c >= 2 && d != 0
    ensures c * d != d
  {
    if d > 0 {
      assert c * d >= 2 * d;
    } else {
      assert c * d <= 2 * d;
    }
  }

  /** With two or more occurrences and a replacement of a different length,
      the two semantics give different strings. */
  lemma ReplaceAllDiffersFromFirst(s: string, pat: string, rep: string)
    requires |pat| > 0 && Count(s, pat) >= 2 && |rep| != |pat|
    ensures ReplaceAll(s, pat, rep) != ReplaceFirst(s, pat, rep)
  {
    var i := Find(s, pat).value;
    var d := |rep| - |pat|;
    var c := Count(s, pat);
    assert |ReplaceFirst(s, pat, rep)| == |s| + d;
    assert |ReplaceAll(s, pat, rep)| == |s| + c * d;
    MultipleDiffers(c, d);
  }

  // ---------------------------------------------------------------------
  // JavaScript replacement patterns

  /** The replacement text JavaScript's `String.prototype.replace` inserts
      for a string pattern (GetSubstitution in the ECMAScript language
      specification, with no capture groups): `$$` stands for `$`, `$&` for
      the matched text, `` $` `` for the text before the match and `$'` for
      the text after it; every other character, including a `$` that starts
      none of these, stands for itself. */
  function Substitute(rep: string, matched: string, before: string, after: string): (r: string)
    ensures '$' !in rep ==> r == rep
    decreases |rep|
  {
    if |rep| == 0 then []
    else if rep[0] == '$' && |rep| >= 2 && rep[1] in "$&`'" then
      var part := if rep[1] == '$' then "$" else if rep[1] == '&' then matched
                  else if rep[1] == '`' then before else after;
      part + Substitute(rep[2..], matched, before, after)
    else
      assert rep == [rep[0]] + rep[1..];
      [rep[0]] + Substitute(rep[1..], matched, before, after)
  }

  /** JavaScript `s.replace(pat, rep)` with a string pattern: the leftmost
      occurrence is replaced by `rep` with its `$` patterns expanded. */
  function ReplaceFirstJs(s: string, pat: string, rep: string): (r: string)
    ensures !Contains(s, pat) ==> r == s
    ensures forall i :: FirstOccurrence(s, pat, i) ==>
              r == s[..i] + Substitute(rep, pat, s[..i], Suffix(s, i + |pat|)) + Suffix(s, i + |pat|)
    ensures '$' !in rep ==> r == ReplaceFirst(s, pat, rep)
  {
    match Find(s, pat)
    case None => s
    case Some(i) =>
      FirstOccurrenceUnique(s, pat, i);
      var after := Suffix(s, i + |pat|);
      s[..i] + Substitute(rep, pat, s[..i], after) + after
  }

  /** With two or more occurrences, the JavaScript replacement leaves a
      literal occurrence of the pattern, whatever the replacement. */
  lemma ReplaceFirstJsLeavesPattern(s: string, pat: string, rep: string)
    requires |pat| > 0 && Count(s, pat) >= 2
    ensures Contains(ReplaceFirstJs(s, pat, rep), pat)
  {
    var i := Find(s, pat).value;
    CountStep(s, pat, i);
    CountedIsContained(Suffix(s, i + |pat|), pat);
    OccurrenceAfterFirstJs(s, pat, rep, i);
  }

  lemma OccurrenceAfterFirstJs(s: string, pat: string, rep: string, i: int)
    requires FirstOccurrence(s, pat, i) && Contains(Suffix(s, i + |pat|), pat)
    ensures Contains(ReplaceFirstJs(s, pat, rep), pat)
  {
    var tail := Suffix(s, i + |pat|);
    var k :| OccursAt(tail, pat, k);
    var x := s[..i] + Substitute(rep, pat, s[..i], tail);
    assert ReplaceFirstJs(s, pat, rep) == x + tail;
    OccurrenceInSuffix(x, tail, pat, k);
  }

  // ---------------------------------------------------------------------
  // Case

  function LowerChar(c: char): char {
    if 'A' <= c <= 'Z' then (c as int + 32) as char else c
  }

  /** ASCII lower-casing; the file-extension and format tables it is used
      with only contain ASCII letters. */
  function LowerAscii(s: string): (r: string)
    ensures |r| == |s|
    ensures forall i :: 0 <= i < |s| ==> r[i] == LowerChar(s[i])
  {
    seq(|s|, i requires 0 <= i < |s| => LowerChar(s[i]))
  }
}
