/** The helpers of utils.js: `formatDuration` on a millisecond count and the
    five-step `sanitizeFilename`, each compared with its utils.py twin. */
module UtilsJs {
  import opened Numerals
  import opened Charsets
  import opened Strings
  import UtilsPy

  // ---------------------------------------------------------------------
  // formatDuration

  /** JavaScript's `a % b` for a positive `b`: the remainder takes the sign
      of `a`. */
  function TruncRem(a: int, b: int): (r: int)
    requires b > 0
    ensures a >= 0 ==> 0 <= r < b && r == a % b
    ensures a < 0 ==> -b < r <= 0
    ensures (a - r) % b == 0
  {
    if a >= 0 then
      RemainderGap(a, b);
      a % b
    else
      RemainderGap(-a, b);
      -((-a) % b)
  }

  /** `n` and its remainder differ by a multiple of `b`. */
  lemma RemainderGap(n: int, b: int)
    requires b > 0
    ensures (n - n % b) % b == 0
    ensures (-n - -(n % b)) % b == 0
  {
    var q := n / b;
    assert n == b * q + n % b;
    MultipleMod(b, q);
    assert -n - -(n % b) == b * -q;
    MultipleMod(b, -q);
  }

  lemma MultipleMod(b: int, q: int)
    requires b > 0
    ensures (b * q) % b == 0
  {
    var d, m := (b * q) / b, (b * q) % b;
    assert b * q == b * d + m;
    assert m == b * (q - d);
    MultipleInRange(b, q - d);
  }

  /** The only multiple of `b` in `0..b-1` is zero. */
  lemma MultipleInRange(b: int, k: int)
    requires b > 0 && 0 <= b * k < b
    ensures k == 0
  {
  }

  /** The `+=` chain of `formatDuration`: hours when positive, minutes
      when either is positive, seconds always. */
  function Assemble(hours: int, minutes: int, secs: int): (r: string)
    ensures |r| >= 2 && r[|r| - 1] == '秒'
    ensures '時' in r <==> hours > 0
    ensures '分' in r <==> minutes > 0 || hours > 0
  {
    NoUnitInNumber(hours);
    NoUnitInNumber(minutes);
    NoUnitInNumber(secs);
    (if hours > 0 then IntToString(hours) + UtilsPy.Hours else "")
      + ((if minutes > 0 || hours > 0 then IntToString(minutes) + UtilsPy.Minutes else "")
      + (IntToString(secs) + UtilsPy.SecondsUnit))
  }

  /** `formatDuration(ms / 1000)`: `Math.floor` of a quotient by a positive
      divisor is Dafny's `/`, while `%` truncates. */
  function FormatDurationJs(ms: int): (r: string)
    ensures |r| >= 2 && r[|r| - 1] == '秒'
    ensures ms >= 0 ==> ('時' in r <==> ms >= 3600000)
    ensures ms >= 0 ==> ('分' in r <==> ms >= 60000)
    ensures ms < 0 ==> '時' !in r && '分' !in r
  {
    PieceSigns(ms);
    Assemble(ms / 3600000, TruncRem(ms, 3600000) / 60000, TruncRem(ms, 60000) / 1000)
  }

  /** When the hour and minute pieces are positive. */
  lemma PieceSigns(ms: int)
    ensures ms / 3600000 > 0 <==> ms >= 3600000
    ensures TruncRem(ms, 3600000) / 60000 > 0 || ms / 3600000 > 0 <==> ms >= 60000
  {
    if ms >= 0 && ms < 3600000 {
      assert ms / 3600000 == 0;
      assert TruncRem(ms, 3600000) == ms;
    }
  }

  /** A printed integer, signed or not, holds no unit character. */
  lemma NoUnitInNumber(i: int)
    ensures '時' !in IntToString(i) && '分' !in IntToString(i) && '秒' !in IntToString(i)
  {
    var s := IntToString(i);
    if i >= 0 {
      UtilsPy.NoUnitInDigits(s);
    } else {
      UtilsPy.NoUnitInDigits(s[1..]);
      assert s == [s[0]] + s[1..];
    }
  }

  /** Division with a known quotient and remainder. */
  lemma DivideExactly(a: int, b: int, q: int, r: int)
    requires b > 0 && 0 <= r < b && a == q * b + r
    ensures a / b == q && a % b == r
  {
    var q', r' := a / b, a % b;
    assert a == q' * b + r';
    assert (q - q') * b == r' - r;
    if q > q' {
      MulAtLeast(q - q', b);
    } else if q < q' {
      MulAtLeast(q' - q, b);
    }
  }

  lemma MulAtLeast(x: int, b: int)
    requires x >= 1 && b > 0
    ensures x * b >= b
  {
    assert x * b == (x - 1) * b + b;
  }

  /** On a non-negative count the millisecond pieces are the pieces of the
      whole seconds. */
  lemma PiecesOfWholeSeconds(ms: nat)
    ensures ms / 3600000 == ms / 1000 / 60 / 60
    ensures TruncRem(ms, 3600000) / 60000 == ms / 1000 / 60 % 60
    ensures TruncRem(ms, 60000) / 1000 == ms / 1000 % 60
  {
    var s := ms / 1000;
    var sub := ms % 1000;
    var mins := s / 60;
    var h, m, x := mins / 60, mins % 60, s % 60;
    assert s == mins * 60 + x;
    assert mins == h * 60 + m;
    assert s == h * 3600 + m * 60 + x;
    assert ms == s * 1000 + sub;
    DivideExactly(ms, 3600000, h, m * 60000 + x * 1000 + sub);
    DivideExactly(ms % 3600000, 60000, m, x * 1000 + sub);
    DivideExactly(ms, 60000, h * 60 + m, x * 1000 + sub);
    DivideExactly(ms % 60000, 1000, x, sub);
  }

  /** With non-negative pieces the chain prints what utils.py prints. */
  lemma AssembleShown(h: nat, m: nat, x: nat)
    ensures Assemble(h, m, x) == UtilsPy.Shown(h, m, x)
  {
    var a, b, c := NatToString(h), NatToString(m), NatToString(x);
    assert IntToString(h) == a && IntToString(m) == b && IntToString(x) == c;
    if h > 0 {
      Regroup(a, UtilsPy.Hours, b, UtilsPy.Minutes, c + UtilsPy.SecondsUnit);
    } else if m > 0 {
      assert Assemble(h, m, x) == "" + ((b + UtilsPy.Minutes) + (c + UtilsPy.SecondsUnit));
    } else {
      assert Assemble(h, m, x) == "" + ("" + (c + UtilsPy.SecondsUnit));
    }
  }

  lemma Regroup(a: string, b: string, c: string, d: string, e: string)
    ensures (a + b) + ((c + d) + e) == a + (b + (c + (d + e)))
  {
  }

  /** For a non-negative duration the JavaScript text equals the Python text
      of the whole seconds (`int()` truncates, `Math.floor` floors, and the
      two agree on non-negative values). */
  lemma FormatDurationAgrees(ms: nat)
    ensures FormatDurationJs(ms) == UtilsPy.FormatDuration(ms / 1000)
  {
    PiecesOfWholeSeconds(ms);
    var h, m, x := UtilsPy.FormatDurationDecomposes(ms / 1000);
    AssembleShown(ms / 1000 / 60 / 60, ms / 1000 / 60 % 60, ms / 1000 % 60);
  }

  /** Below zero the two part ways: one second short of zero reads "-1秒"
      here, where Python's floored `divmod` gives "59分59秒". */
  lemma FormatDurationDivergesBelowZero()
    ensures FormatDurationJs(-1000) == "-1秒"
    ensures UtilsPy.FormatDuration(-1) == "59分59秒"
  {
    NegativeSecondJs();
    UtilsPy.FormatNegativeDuration();
  }

  lemma NegativeSecondJs()
    ensures FormatDurationJs(-1000) == "-1秒"
  {
    assert -1000 / 3600000 == -1;
    assert TruncRem(-1000, 3600000) / 60000 == -1;
    assert TruncRem(-1000, 60000) / 1000 == -1;
    assert IntToString(-1) == "-1" by {
      assert NatToString(1) == "1";
    }
    assert Assemble(-1, -1, -1) == "-1" + UtilsPy.SecondsUnit;
  }

  // ---------------------------------------------------------------------
  // sanitizeFilename

  /** The characters of `/[<>:"/\\|?*]/`. */
  predicate IsForbiddenJs(c: char) {
    c == '<' || c == '>' || c == ':' || c == '"' || c == '/' || c == '\\' || c == '|' || c == '?' || c == '*'
  }

  /** Step one: every forbidden character becomes '_'. */
  function ReplaceForbidden(s: string): (r: string)
    ensures |r| == |s|
    ensures forall i :: 0 <= i < |s| ==> r[i] == (if IsForbiddenJs(s[i]) then '_' else s[i])
  {
    if s == [] then [] else [if IsForbiddenJs(s[0]) then '_' else s[0]] + ReplaceForbidden(s[1..])
  }

  /** The two runs the sanitiser collapses: `/\s+/` into '_' and `/\.+/`
      into '.'. */
  datatype RunClass = Spaces | Dots

  predicate InClass(k: RunClass, c: char) {
    match k
    case Spaces => IsJsWhitespace(c)
    case Dots => c == '.'
  }

  function Replacement(k: RunClass): char {
    match k
    case Spaces => '_'
    case Dots => '.'
  }

  /** `s` without its leading run of class characters. */
  function DropRun(s: string, k: RunClass): (r: string)
    ensures |r| <= |s| && r == Suffix(s, |s| - |r|)
    ensures r == [] || !InClass(k, r[0])
    ensures forall i :: 0 <= i < |s| - |r| ==> InClass(k, s[i])
    ensures s != [] && InClass(k, s[0]) ==> |r| < |s|
  {
    if s != [] && InClass(k, s[0]) then
      var r := DropRun(s[1..], k);
      SuffixOfTail(s, |s| - 1 - |r|);
      r
    else
      SuffixZero(s);
      s
  }

  /** A global `replace` of a `+`-quantified class: each maximal run becomes
      one replacement character. */
  function Collapse(s: string, k: RunClass): (r: string)
    ensures |r| <= |s|
    ensures r == [] <==> s == []
    ensures s != [] ==> r[0] == (if InClass(k, s[0]) then Replacement(k) else s[0])
    ensures Collapsed(r, k)
    ensures NoForbidden(s) ==> NoForbidden(r)
    ensures k == Dots && NoWhitespace(s) ==> NoWhitespace(r)
    decreases |s|
  {
    if s == [] then []
    else if InClass(k, s[0]) then
      var rest := DropRun(s, k);
      SuffixChars(s, |s| - |rest|);
      var t := Collapse(rest, k);
      [Replacement(k)] + t
    else
      var t := Collapse(s[1..], k);
      [s[0]] + t
  }

  /** No run to collapse: the class characters are the replacement and
      never stand next to each other. */
  predicate Collapsed(s: string, k: RunClass) {
    && (forall i :: 0 <= i < |s| && InClass(k, s[i]) ==> s[i] == Replacement(k))
    && (forall i :: 0 <= i < |s| - 1 ==> !(InClass(k, s[i]) && InClass(k, s[i + 1])))
  }

  predicate NoForbidden(s: string) {
    forall i :: 0 <= i < |s| ==> !IsForbiddenJs(s[i])
  }

  /** A whole run, however long, becomes one replacement character. */
  lemma CollapseRun(u: string, k: RunClass)
    requires u != [] && forall i :: 0 <= i < |u| ==> InClass(k, u[i])
    ensures Collapse(u, k) == [Replacement(k)]
  {
    var d := DropRun(u, k);
    SuffixFirst(u, |u| - |d|);
    assert d == [];
  }

  /** Dropping a run from `a + b` when the run does not reach into `b`, or
      ends exactly where `a` does. */
  lemma {:induction false} DropRunAppend(a: string, b: string, k: RunClass)
    ensures DropRun(a, k) != [] ==> DropRun(a + b, k) == DropRun(a, k) + b
    ensures DropRun(a, k) == [] && (b == [] || !InClass(k, b[0])) ==> DropRun(a + b, k) == b
    decreases |a|
  {
    if a == [] {
      assert a + b == b;
    } else {
      HeadTailOfAppend(a, b);
      if InClass(k, a[0]) {
        DropRunAppend(a[1..], b, k);
        DropRunStep(a, k);
        DropRunStep(a + b, k);
      } else {
        DropRunStops(a, k);
        DropRunStops(a + b, k);
      }
    }
  }

  lemma HeadTailOfAppend(a: string, b: string)
    requires a != []
    ensures (a + b)[0] == a[0] && (a + b)[1..] == a[1..] + b
  {
  }

  lemma DropRunStep(s: string, k: RunClass)
    requires s != [] && InClass(k, s[0])
    ensures DropRun(s, k) == DropRun(s[1..], k)
  {
  }

  lemma DropRunStops(s: string, k: RunClass)
    requires s == [] || !InClass(k, s[0])
    ensures DropRun(s, k) == s
  {
  }

  /** The last character of a non-empty suffix is the last character of
      the string. */
  lemma SuffixLast(s: string, k: nat)
    requires k < |s|
    ensures Suffix(s, k)[|s| - k - 1] == s[|s| - 1]
  {
    SuffixAt(s, k, |s| - k - 1);
  }

  /** Collapsing distributes over a concatenation whose seam is not inside
      a run. */
  lemma {:induction false} CollapseAppend(a: string, b: string, k: RunClass)
    requires a == [] || b == [] || !InClass(k, a[|a| - 1]) || !InClass(k, b[0])
    ensures Collapse(a + b, k) == Collapse(a, k) + Collapse(b, k)
    decreases |a|, 1
  {
    if a == [] {
      assert a + b == b;
    } else if InClass(k, a[0]) {
      CollapseAppendRun(a, b, k);
    } else {
      CollapseAppendKept(a, b, k);
    }
  }

  lemma {:induction false} CollapseAppendRun(a: string, b: string, k: RunClass)
    requires a != [] && InClass(k, a[0])
    requires b == [] || !InClass(k, a[|a| - 1]) || !InClass(k, b[0])
    ensures Collapse(a + b, k) == Collapse(a, k) + Collapse(b, k)
    decreases |a|, 0
  {
    var d := DropRun(a, k);
    if d == [] {
      WholeRunAppend(a, b, k);
    } else {
      SuffixLast(a, |a| - |d|);
      CollapseAppend(d, b, k);
      RunThenRest(a, b, k);
    }
  }

  /** A run that fills all of `a` collapses to one character in front of
      `b`, when `b` does not continue it. */
  lemma WholeRunAppend(a: string, b: string, k: RunClass)
    requires a != [] && InClass(k, a[0]) && DropRun(a, k) == []
    requires b == [] || !InClass(k, a[|a| - 1]) || !InClass(k, b[0])
    ensures Collapse(a + b, k) == Collapse(a, k) + Collapse(b, k)
  {
    assert InClass(k, a[|a| - 1]);
    DropRunAppend(a, b, k);
    RunUnfold(a, k);
    RunUnfoldAppend(a, b, k);
    assert Collapse([], k) == [];
    PrefixCombine(Collapse(a + b, k), [Replacement(k)], Collapse(b, k), Collapse(a, k), [], Collapse(b, k));
  }

  /** A leading run of `a` that stops inside `a`: collapsing `a + b` is the
      run's character followed by the collapsed rest, given that the rest
      of `a` and `b` collapse separately. */
  lemma RunThenRest(a: string, b: string, k: RunClass)
    requires a != [] && InClass(k, a[0]) && DropRun(a, k) != []
    requires Collapse(DropRun(a, k) + b, k) == Collapse(DropRun(a, k), k) + Collapse(b, k)
    ensures Collapse(a + b, k) == Collapse(a, k) + Collapse(b, k)
  {
    var d := DropRun(a, k);
    DropRunAppend(a, b, k);
    RunUnfold(a, k);
    RunUnfoldAppend(a, b, k);
    PrefixCombine(Collapse(a + b, k), [Replacement(k)], Collapse(d + b, k), Collapse(a, k), Collapse(d, k), Collapse(b, k));
  }

  lemma {:induction false} CollapseAppendKept(a: string, b: string, k: RunClass)
    requires a != [] && !InClass(k, a[0])
    requires b == [] || !InClass(k, a[|a| - 1]) || !InClass(k, b[0])
    ensures Collapse(a + b, k) == Collapse(a, k) + Collapse(b, k)
    decreases |a|, 0
  {
    var t := a[1..];
    if t != [] {
      assert t[|t| - 1] == a[|a| - 1];
    }
    CollapseAppend(t, b, k);
    KeptUnfold(a, k);
    KeptUnfoldAppend(a, b, k);
    PrefixCombine(Collapse(a + b, k), [a[0]], Collapse(t + b, k), Collapse(a, k), Collapse(t, k), Collapse(b, k));
  }

  lemma RunUnfold(s: string, k: RunClass)
    requires s != [] && InClass(k, s[0])
    ensures Collapse(s, k) == [Replacement(k)] + Collapse(DropRun(s, k), k)
  {
  }

  lemma RunUnfoldAppend(a: string, b: string, k: RunClass)
    requires a != [] && InClass(k, a[0])
    ensures Collapse(a + b, k) == [Replacement(k)] + Collapse(DropRun(a + b, k), k)
  {
    assert (a + b)[0] == a[0];
  }

  lemma KeptUnfoldAppend(a: string, b: string, k: RunClass)
    requires a != [] && !InClass(k, a[0])
    ensures Collapse(a + b, k) == [a[0]] + Collapse(a[1..] + b, k)
  {
    assert (a + b)[1..] == a[1..] + b;
    assert (a + b)[0] == a[0];
  }

  lemma KeptUnfold(s: string, k: RunClass)
    requires s != [] && !InClass(k, s[0])
    ensures Collapse(s, k) == [s[0]] + Collapse(s[1..], k)
  {
  }

  /** `x == p + y`, `a == p + u` and `y == u + z` give `x == a + z`. */
  lemma PrefixCombine(x: string, p: string, y: string, a: string, u: string, z: string)
    requires x == p + y && a == p + u && y == u + z
    ensures x == a + z
  {
  }

  /** A character outside the class is kept and separates what comes
      before it from what comes after. */
  lemma CollapseAroundKept(a: string, c: char, b: string, k: RunClass)
    requires !InClass(k, c)
    ensures Collapse(a + [c] + b, k) == Collapse(a, k) + [c] + Collapse(b, k)
  {
    CollapseAppend(a + [c], b, k);
    CollapseAppend(a, [c], k);
    KeptUnfold([c], k);
    assert [c][1..] == [];
    PrefixCombine(Collapse(a + [c], k), Collapse(a, k), Collapse([c], k), Collapse(a, k), [], [c]);
  }

  /** A string with nothing to collapse is left as it is. */
  lemma {:induction false} CollapseCollapsed(s: string, k: RunClass)
    requires Collapsed(s, k)
    ensures Collapse(s, k) == s
    decreases |s|
  {
    if s != [] {
      CollapsedTail(s, k);
      CollapseCollapsed(s[1..], k);
      if InClass(k, s[0]) {
        SingleRun(s, k);
        assert Collapse(s, k) == [Replacement(k)] + Collapse(s[1..], k);
      } else {
        assert Collapse(s, k) == [s[0]] + Collapse(s[1..], k);
      }
      assert [s[0]] + s[1..] == s;
    }
  }

  lemma CollapsedTail(s: string, k: RunClass)
    requires s != [] && Collapsed(s, k)
    ensures Collapsed(s[1..], k)
  {
    assert forall i :: 0 <= i < |s[1..]| ==> s[1..][i] == s[i + 1];
  }

  /** In a collapsed string a run is one character long. */
  lemma SingleRun(s: string, k: RunClass)
    requires s != [] && Collapsed(s, k) && InClass(k, s[0])
    ensures s[0] == Replacement(k) && DropRun(s, k) == s[1..]
  {
    assert |s| == 1 || !InClass(k, s[1]);
  }

  function TrimStart(s: string): (r: string)
    ensures |r| <= |s| && r == Suffix(s, |s| - |r|)
    ensures r == [] || !IsJsWhitespace(r[0])
    ensures forall i :: 0 <= i < |s| - |r| ==> IsJsWhitespace(s[i])
  {
    if s != [] && IsJsWhitespace(s[0]) then
      var r := TrimStart(s[1..]);
      SuffixOfTail(s, |s| - 1 - |r|);
      r
    else
      SuffixZero(s);
      s
  }

  function TrimEnd(s: string): (r: string)
    ensures |r| <= |s| && r == s[..|r|]
    ensures r == [] || !IsJsWhitespace(r[|r| - 1])
    ensures forall i :: |r| <= i < |s| ==> IsJsWhitespace(s[i])
  {
    if s != [] && IsJsWhitespace(s[|s| - 1]) then TrimEnd(s[..|s| - 1]) else s
  }

  /** `String.prototype.trim`: the slice of `s` left when the white space
      at both ends is cut off. */
  function Trim(s: string): (r: string)
    ensures r == [] || (!IsJsWhitespace(r[0]) && !IsJsWhitespace(r[|r| - 1]))
    ensures exists i, j :: 0 <= i <= j <= |s| && r == s[i..j] && TrimmedAt(s, i, j)
  {
    var t := TrimStart(s);
    var u := TrimEnd(t);
    var i := |s| - |t|;
    SuffixSplit(s, i);
    assert t == s[i..];
    assert u == s[i..i + |u|];
    assert TrimmedAt(s, i, i + |u|);
    assert u != [] ==> u[0] == t[0];
    u
  }

  /** Only white space lies outside `s[i..j]`. */
  predicate TrimmedAt(s: string, i: int, j: int)
    requires 0 <= i <= j <= |s|
  {
    (forall m :: 0 <= m < i ==> IsJsWhitespace(s[m])) && (forall m :: j <= m < |s| ==> IsJsWhitespace(s[m]))
  }

  predicate NoWhitespace(s: string) {
    forall i :: 0 <= i < |s| ==> !IsJsWhitespace(s[i])
  }

  /** Trimming a string without white space changes nothing. */
  lemma TrimNoWhitespace(s: string)
    requires NoWhitespace(s)
    ensures Trim(s) == s
  {
    assert TrimStart(s) == s;
    assert TrimEnd(s) == s;
  }

  /** Step four, `/^\./` replaced by '_'. */
  function ReplaceLeadingDot(s: string): (r: string)
    ensures |r| == |s|
    ensures s != [] && s[0] == '.' ==> r == "_" + s[1..]
    ensures s == [] || s[0] != '.' ==> r == s
  {
    if s != [] && s[0] == '.' then "_" + s[1..] else s
  }

  /** What the sanitiser guarantees: no forbidden character, no white
      space, no two dots in a row, and no leading dot. */
  predicate SafeJs(s: string) {
    && (forall i :: 0 <= i < |s| ==> !IsForbiddenJs(s[i]) && !IsJsWhitespace(s[i]))
    && (forall i :: 0 <= i < |s| - 1 ==> !(s[i] == '.' && s[i + 1] == '.'))
    && (s == [] || s[0] != '.')
  }

  /** Steps one to three: forbidden characters replaced, then white-space
      runs and dot runs collapsed. */
  function CollapseRuns(s: string): (r: string)
    ensures |r| <= |s|
    ensures r == [] <==> s == []
    ensures NoForbidden(r) && NoWhitespace(r) && Collapsed(r, Dots)
  {
    var s1 := ReplaceForbidden(s);
    var s2 := Collapse(s1, Spaces);
    assert NoForbidden(s2) && NoWhitespace(s2);
    Collapse(s2, Dots)
  }

  /** Step four removes a leading dot without making a new one. */
  lemma LeadingStep(s: string)
    requires NoForbidden(s) && NoWhitespace(s) && Collapsed(s, Dots)
    ensures SafeJs(ReplaceLeadingDot(s))
  {
    var r := ReplaceLeadingDot(s);
    if s != [] && s[0] == '.' {
      assert forall i :: 1 <= i < |r| ==> r[i] == s[i];
      assert |s| == 1 || s[1] != '.';
    }
  }

  /** `sanitizeFilename(filename)`. */
  function SanitizeFilenameJs(filename: string): (r: string)
    ensures |r| <= |filename|
    ensures r == [] <==> filename == []
    ensures SafeJs(r)
  {
    var s3 := CollapseRuns(filename);
    LeadingStep(s3);
    TrimNoWhitespace(ReplaceLeadingDot(s3));
    Trim(ReplaceLeadingDot(s3))
  }

  /** The final `trim` has nothing left to remove. */
  lemma TrimIsIdle(s: string)
    ensures SanitizeFilenameJs(s) == ReplaceLeadingDot(CollapseRuns(s))
  {
    LeadingStep(CollapseRuns(s));
    TrimNoWhitespace(ReplaceLeadingDot(CollapseRuns(s)));
  }

  /** A safe name passes through unchanged. */
  lemma SafeUnchanged(s: string)
    requires SafeJs(s)
    ensures SanitizeFilenameJs(s) == s
  {
    assert ReplaceForbidden(s) == s;
    CollapseCollapsed(s, Spaces);
    CollapseCollapsed(s, Dots);
    TrimNoWhitespace(s);
  }

  /** The sanitiser's fixed points are exactly the safe names. */
  lemma SanitizeFixedPoints(s: string)
    ensures SanitizeFilenameJs(s) == s <==> SafeJs(s)
  {
    if SafeJs(s) {
      SafeUnchanged(s);
    }
  }

  /** Sanitising twice is sanitising once. */
  lemma SanitizeFilenameJsIdempotent(s: string)
    ensures SanitizeFilenameJs(SanitizeFilenameJs(s)) == SanitizeFilenameJs(s)
  {
    SafeUnchanged(SanitizeFilenameJs(s));
  }

  /** A character no step touches. */
  predicate Plain(c: char) {
    !IsForbiddenJs(c) && !IsJsWhitespace(c) && c != '.'
  }

  lemma ReplaceForbiddenAppend(x: string, y: string)
    ensures ReplaceForbidden(x + y) == ReplaceForbidden(x) + ReplaceForbidden(y)
  {
    var l := ReplaceForbidden(x + y);
    var r := ReplaceForbidden(x) + ReplaceForbidden(y);
    forall i | 0 <= i < |l|
      ensures l[i] == r[i]
    {
      if i < |x| {
        assert (x + y)[i] == x[i];
      } else {
        assert (x + y)[i] == y[i - |x|];
      }
    }
  }

  lemma ReplaceForbiddenAround(a: string, c: char, b: string)
    requires !IsForbiddenJs(c)
    ensures ReplaceForbidden(a + [c] + b) == ReplaceForbidden(a) + [c] + ReplaceForbidden(b)
  {
    ReplaceForbiddenAppend(a + [c], b);
    ReplaceForbiddenAppend(a, [c]);
    assert ReplaceForbidden([c]) == [c];
  }

  /** Steps one to three treat the parts on either side of a plain
      character separately. */
  lemma CollapseRunsAround(a: string, c: char, b: string)
    requires Plain(c)
    ensures CollapseRuns(a + [c] + b) == CollapseRuns(a) + [c] + CollapseRuns(b)
  {
    ReplaceForbiddenAround(a, c, b);
    var a1, b1 := ReplaceForbidden(a), ReplaceForbidden(b);
    CollapseAroundKept(a1, c, b1, Spaces);
    CollapseAroundKept(Collapse(a1, Spaces), c, Collapse(b1, Spaces), Dots);
  }

  /** A leading dot before `c` is the only one step four can see. */
  lemma LeadingDotAround(x: string, c: char, y: string)
    requires c != '.'
    ensures ReplaceLeadingDot(x + [c] + y) == ReplaceLeadingDot(x) + [c] + y
  {
    if x == [] {
      assert x + [c] + y == [c] + y;
    } else {
      assert (x + [c] + y)[0] == x[0];
      if x[0] == '.' {
        assert (x + [c] + y)[1..] == x[1..] + [c] + y;
      }
    }
  }

  /** A plain character cuts a name into two parts sanitised on their own:
      the part before as a whole name, the part after without step four,
      since it does not start the name. */
  lemma SanitizeAroundPlain(a: string, c: char, b: string)
    requires Plain(c)
    ensures SanitizeFilenameJs(a + [c] + b) == SanitizeFilenameJs(a) + [c] + CollapseRuns(b)
  {
    CollapseRunsAround(a, c, b);
    TrimIsIdle(a + [c] + b);
    TrimIsIdle(a);
    LeadingDotAround(CollapseRuns(a), c, CollapseRuns(b));
  }

  /** The two file-name sanitisers part ways on dots: ".." is kept by
      utils.py and becomes "_" here. */
  lemma SanitisersDivergeOnDots()
    ensures UtilsPy.SanitizeFilename("..") == ".." && SanitizeFilenameJs("..") == "_"
  {
    UtilsPy.SanitizeFilenameKeepsDots();
    assert ReplaceForbidden("..") == "..";
    CollapseCollapsed("..", Spaces);
    CollapseRun("..", Dots);
    TrimIsIdle("..");
  }

  /** Steps one to three turn a run of white space into one '_'. */
  lemma CollapseRunsSpaces(u: string)
    requires u != [] && forall i :: 0 <= i < |u| ==> IsJsWhitespace(u[i])
    ensures CollapseRuns(u) == "_"
  {
    assert ReplaceForbidden(u) == u;
    CollapseRun(u, Spaces);
    KeptUnfold("_", Dots);
  }

  /** A plain first character is kept, and the rest loses its runs. */
  lemma SanitizePlainFirst(c: char, b: string)
    requires Plain(c)
    ensures SanitizeFilenameJs([c] + b) == [c] + CollapseRuns(b)
  {
    SanitizeAroundPlain([], c, b);
    assert [] + [c] + b == [c] + b;
  }

  /** A plain last character is kept after the sanitised rest. */
  lemma SanitizePlainLast(a: string, c: char)
    requires Plain(c)
    ensures SanitizeFilenameJs(a + [c]) == SanitizeFilenameJs(a) + [c]
  {
    assert a + [c] + [] == a + [c];
    SanitizeAroundPlain(a, c, []);
  }

  /** A run of white space between two plain characters becomes one '_'. */
  lemma SanitizeSpaceRun(x: char, u: string, y: char)
    requires Plain(x) && Plain(y)
    requires u != [] && forall i :: 0 <= i < |u| ==> IsJsWhitespace(u[i])
    ensures SanitizeFilenameJs([x] + u + [y]) == [x, '_', y]
  {
    SanitizePlainLast([x] + u, y);
    SanitizePlainFirst(x, u);
    CollapseRunsSpaces(u);
  }

  /** ... and on runs: a double space becomes two underscores there and one
      here. */
  lemma SanitisersDivergeOnRuns()
    ensures UtilsPy.SanitizeFilename("a  b") == "a__b" && SanitizeFilenameJs("a  b") == "a_b"
  {
    assert UtilsPy.SanitizeFilename("a  b") == "a__b" by {
      var p := UtilsPy.SanitizeFilename("a  b");
      assert p[0] == 'a' && p[1] == '_' && p[2] == '_' && p[3] == 'b';
    }
    assert SanitizeFilenameJs("a  b") == "a_b" by {
      assert "a  b" == ['a'] + "  " + ['b'];
      SanitizeSpaceRun('a', "  ", 'b');
    }
  }
}
