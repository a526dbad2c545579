/** Character classes the sanitisers test, and the one-for-one sanitiser
    that replaces every character outside a class by '_'. */
module Charsets {

  predicate IsAsciiLetter(c: char) {
    ('a' <= c <= 'z') || ('A' <= c <= 'Z')
  }

  predicate IsAsciiDigit(c: char) {
    '0' <= c <= '9'
  }

  predicate IsAsciiAlnum(c: char) {
    IsAsciiLetter(c) || IsAsciiDigit(c)
  }

  /** Python's `str.isalnum` on one character, over a partial table of
      Unicode 15: ASCII letters and digits; the Latin-1 letters, the
      ordinal indicators, the micro sign, the superscript digits and the
      vulgar fractions; the ideographic iteration and closing marks and the
      ideographic zero; hiragana and katakana with their prolonged sound
      and iteration marks; the CJK unified ideographs and extension B;
      Hangul syllables; the full-width digits and Latin letters and the
      half-width katakana. Other scripts are not covered. */
  predicate IsAlnumPy(c: char) {
    || IsAsciiAlnum(c)
    || c == '\U{00AA}' || c == '\U{00B2}' || c == '\U{00B3}' || c == '\U{00B5}'
    || c == '\U{00B9}' || c == '\U{00BA}'
    || ('\U{00BC}' <= c <= '\U{00BE}')
    || ('\U{00C0}' <= c <= '\U{00D6}')
    || ('\U{00D8}' <= c <= '\U{00F6}')
    || ('\U{00F8}' <= c <= '\U{00FF}')
    || ('\U{3005}' <= c <= '\U{3007}')
    || ('\U{3041}' <= c <= '\U{3096}')
    || ('\U{309D}' <= c <= '\U{309F}')
    || ('\U{30A1}' <= c <= '\U{30FA}')
    || ('\U{30FC}' <= c <= '\U{30FF}')
    || ('\U{4E00}' <= c <= '\U{9FFF}')
    || ('\U{AC00}' <= c <= '\U{D7A3}')
    || ('\U{FF10}' <= c <= '\U{FF19}')
    || ('\U{FF21}' <= c <= '\U{FF3A}')
    || ('\U{FF41}' <= c <= '\U{FF5A}')
    || ('\U{FF66}' <= c <= '\U{FF9F}')
    || ('\U{20000}' <= c <= '\U{2A6DF}')
  }

  /** Python's regular-expression `\w` on a `str` pattern: alphanumerics and '_'. */
  predicate IsWordPy(c: char) {
    IsAlnumPy(c) || c == '_'
  }

  /** JavaScript's regular-expression `\w` (no `u` flag): ASCII only. */
  predicate IsWordJs(c: char) {
    IsAsciiAlnum(c) || c == '_'
  }

  /** ECMAScript white space and line terminators: the characters matched by
      `\s` and removed by `String.prototype.trim`. */
  predicate IsJsWhitespace(c: char) {
    || c == '\t' || c == '\n' || c == '\U{000B}' || c == '\U{000C}' || c == '\r'
    || c == ' ' || c == '\U{00A0}' || c == '\U{1680}'
    || ('\U{2000}' <= c <= '\U{200A}')
    || c == '\U{2028}' || c == '\U{2029}' || c == '\U{202F}' || c == '\U{205F}'
    || c == '\U{3000}' || c == '\U{FEFF}'
  }

  /** The character sets the one-for-one sanitisers keep. */
  datatype Kept =
    | ChannelNamePy   // recorder.py: `c.isalnum() or c in '-_'`
    | FileNamePy      // utils.py: the complement of `[^\w\-\.]`
    | ChannelNameJs   // recorder.js: the complement of `[^\w-]`

  predicate Keeps(k: Kept, c: char) {
    match k
    case ChannelNamePy => IsAlnumPy(c) || c == '-' || c == '_'
    case FileNamePy => IsWordPy(c) || c == '-' || c == '.'
    case ChannelNameJs => IsWordJs(c) || c == '-'
  }

  /** Replaces every character that `k` does not keep by '_', one for one. */
  function ReplaceDisallowed(s: string, k: Kept): (r: string)
    ensures |r| == |s|
    ensures forall i :: 0 <= i < |s| && Keeps(k, s[i]) ==> r[i] == s[i]
    ensures forall i :: 0 <= i < |s| && !Keeps(k, s[i]) ==> r[i] == '_'
  {
    if |s| == 0 then ""
    else [if Keeps(k, s[0]) then s[0] else '_'] + ReplaceDisallowed(s[1..], k)
  }

  /** Every character of a sanitised string is kept by its class. */
  lemma SanitisedIsKept(s: string, k: Kept)
    ensures forall i :: 0 <= i < |s| ==> Keeps(k, ReplaceDisallowed(s, k)[i])
  {
  }

  /** A string whose characters are all kept is left unchanged. */
  lemma KeptStringUnchanged(s: string, k: Kept)
    requires forall i :: 0 <= i < |s| ==> Keeps(k, s[i])
    ensures ReplaceDisallowed(s, k) == s
  {
  }

  /** Sanitising twice is sanitising once. */
  lemma ReplaceDisallowedIdempotent(s: string, k: Kept)
    ensures ReplaceDisallowed(ReplaceDisallowed(s, k), k) == ReplaceDisallowed(s, k)
  {
    SanitisedIsKept(s, k);
    KeptStringUnchanged(ReplaceDisallowed(s, k), k);
  }

  // ---------------------------------------------------------------------
  // JavaScript strings as UTF-16 code units

  /** A character outside the Basic Multilingual Plane: a JavaScript string
      holds it as two UTF-16 code units, a surrogate pair. */
  predicate IsAstral(c: char) {
    c > '\U{FFFF}'
  }

  /** The number of UTF-16 code units JavaScript stores for `s`. */
  function Utf16Length(s: string): (n: nat)
    ensures |s| <= n <= 2 * |s|
    ensures n == |s| <==> forall i :: 0 <= i < |s| ==> !IsAstral(s[i])
  {
    if |s| == 0 then 0
    else
      var n := (if IsAstral(s[0]) then 2 else 1) + Utf16Length(s[1..]);
      assert (forall i :: 0 <= i < |s| ==> !IsAstral(s[i])) <==>
             !IsAstral(s[0]) && forall i :: 0 <= i < |s[1..]| ==> !IsAstral(s[1..][i]) by {
        if forall i :: 0 <= i < |s[1..]| ==> !IsAstral(s[1..][i]) {
          forall i | 1 <= i < |s| ensures !IsAstral(s[i]) {
            assert s[i] == s[1..][i - 1];
          }
        }
      }
      n
  }

  /** What `[^\w-]` replacing by '_' makes of one character when the
      pattern reads code units: both halves of a surrogate pair become '_'. */
  function UnitsReplaced(c: char): string {
    if IsAstral(c) then "__"
    else if Keeps(ChannelNameJs, c) then [c]
    else "_"
  }

  /** `s.replace(/[^\w-]/g, '_')` as JavaScript runs it without the `u`
      flag: the result has one character per UTF-16 code unit of `s`, and
      each of them is in the class. */
  function ReplaceNonWordUnits(s: string): (r: string)
    ensures |r| == Utf16Length(s)
    ensures forall i :: 0 <= i < |r| ==> Keeps(ChannelNameJs, r[i])
  {
    if |s| == 0 then ""
    else UnitsReplaced(s[0]) + ReplaceNonWordUnits(s[1..])
  }

  /** The code-unit replacement distributes over concatenation. */
  lemma {:induction false} ReplaceNonWordUnitsAppend(a: string, b: string)
    ensures ReplaceNonWordUnits(a + b) == ReplaceNonWordUnits(a) + ReplaceNonWordUnits(b)
  {
    if |a| > 0 {
      assert (a + b)[1..] == a[1..] + b;
      ReplaceNonWordUnitsAppend(a[1..], b);
    } else {
      assert a + b == b;
    }
  }

  /** Reading code units makes no difference exactly when `s` has no
      character outside the Basic Multilingual Plane: then the JavaScript
      replacement is the one-for-one sanitiser of the class. */
  lemma ReplaceNonWordUnitsOnBmp(s: string)
    ensures (ReplaceNonWordUnits(s) == ReplaceDisallowed(s, ChannelNameJs))
              <==> forall i :: 0 <= i < |s| ==> !IsAstral(s[i])
  {
    if forall i :: 0 <= i < |s| ==> !IsAstral(s[i]) {
      BmpUnitsOneForOne(s);
    }
  }

  lemma {:induction false} BmpUnitsOneForOne(s: string)
    requires forall i :: 0 <= i < |s| ==> !IsAstral(s[i])
    ensures ReplaceNonWordUnits(s) == ReplaceDisallowed(s, ChannelNameJs)
  {
    if |s| > 0 {
      BmpUnitsOneForOne(s[1..]);
    }
  }

  /** The characters of the class are all ASCII. */
  lemma KeptByJsIsBmp(s: string)
    requires forall i :: 0 <= i < |s| ==> Keeps(ChannelNameJs, s[i])
    ensures forall i :: 0 <= i < |s| ==> !IsAstral(s[i])
  {
  }

  /** Sanitising twice the JavaScript way is sanitising once. */
  lemma ReplaceNonWordUnitsIdempotent(s: string)
    ensures ReplaceNonWordUnits(ReplaceNonWordUnits(s)) == ReplaceNonWordUnits(s)
  {
    var r := ReplaceNonWordUnits(s);
    KeptByJsIsBmp(r);
    ReplaceNonWordUnitsOnBmp(r);
    KeptStringUnchanged(r, ChannelNameJs);
  }

  /** Every character outside the Basic Multilingual Plane in `s` is one
      that Python's `isalnum` keeps. */
  predicate AstralAreAlnumPy(s: string) {
    forall i :: 0 <= i < |s| && IsAstral(s[i]) ==> IsAlnumPy(s[i])
  }

  /** Sanitising the Python way first and the JavaScript way second is the
      same as sanitising the JavaScript way alone exactly when Python keeps
      every character outside the Basic Multilingual Plane: Python turns
      any other such character into one '_', where JavaScript alone turns
      its two code units into two. */
  lemma JsSanitiserAbsorbsPy(s: string)
    ensures (ReplaceNonWordUnits(ReplaceDisallowed(s, ChannelNamePy)) == ReplaceNonWordUnits(s))
              <==> AstralAreAlnumPy(s)
  {
    if AstralAreAlnumPy(s) {
      AbsorbsWhenAstralKept(s);
    } else {
      PyFirstShortens(s);
    }
  }

  lemma {:induction false} AbsorbsWhenAstralKept(s: string)
    requires AstralAreAlnumPy(s)
    ensures ReplaceNonWordUnits(ReplaceDisallowed(s, ChannelNamePy)) == ReplaceNonWordUnits(s)
  {
    if |s| > 0 {
      var p := ReplaceDisallowed(s, ChannelNamePy);
      assert p[1..] == ReplaceDisallowed(s[1..], ChannelNamePy);
      assert AstralAreAlnumPy(s[1..]) by {
        forall i | 0 <= i < |s[1..]| && IsAstral(s[1..][i]) ensures IsAlnumPy(s[1..][i]) {
          assert s[1..][i] == s[i + 1];
        }
      }
      AbsorbsWhenAstralKept(s[1..]);
    }
  }

  /** Sanitising the Python way never lengthens the code units, and
      shortens them when Python drops a character outside the Basic
      Multilingual Plane. */
  lemma {:induction false} PyFirstShortens(s: string)
    ensures Utf16Length(ReplaceDisallowed(s, ChannelNamePy)) <= Utf16Length(s)
    ensures !AstralAreAlnumPy(s) ==> Utf16Length(ReplaceDisallowed(s, ChannelNamePy)) < Utf16Length(s)
  {
    if |s| > 0 {
      var p := ReplaceDisallowed(s, ChannelNamePy);
      assert p[1..] == ReplaceDisallowed(s[1..], ChannelNamePy);
      PyFirstShortens(s[1..]);
    }
  }
}
