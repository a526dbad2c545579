/** Clock readings and the three textual timestamps the recorder builds
    from them: Python's `strftime('%Y-%m-%dT%H-%M-%S')` (file names),
    Python's `strftime('%Y-%m-%d %H:%M:%S')` (upload descriptions) and
    JavaScript's `toISOString()` with ':' and '.' replaced by '-' (file
    names). */
module Timestamps {
  import opened Wrappers
  import opened Numerals

  /** A calendar reading. Python reads local time, JavaScript's
      `toISOString` reads UTC; the model takes whichever reading applies. */
  datatype DateTime = DateTime(
    year: nat, month: nat, day: nat,
    hour: nat, minute: nat, second: nat, millis: nat)

  /** Field ranges of a reading; four-digit years only. */
  predicate Valid(t: DateTime) {
    && 1000 <= t.year <= 9999
    && 1 <= t.month <= 12
    && 1 <= t.day <= 31
    && t.hour < 24
    && t.minute < 60
    && t.second < 60
    && t.millis < 1000
  }

  function Pad2(n: nat): (s: string)
    requires n < 100
    ensures |s| == 2 && AllDigits(s)
  {
    ZeroPad(n, 2)
  }

  function Pad3(n: nat): (s: string)
    requires n < 1000
    ensures |s| == 3 && AllDigits(s)
  {
    ZeroPad(n, 3)
  }

  function Pad4(n: nat): (s: string)
    requires n < 10000
    ensures |s| == 4 && AllDigits(s)
  {
    assert Pow10(4) == 10000;
    ZeroPad(n, 4)
  }

  /** Year, month, day, hour, minute and second, zero-padded, with the
      separators `a` to `e` between them: the layout both `strftime`
      formats share. */
  function Layout(t: DateTime, a: char, b: char, c: char, d: char, e: char): (s: string)
    requires Valid(t)
    ensures |s| == 19
  {
    Pad4(t.year) + ([a] + (Pad2(t.month) + ([b] + (Pad2(t.day) + ([c] +
      (Pad2(t.hour) + ([d] + (Pad2(t.minute) + ([e] + Pad2(t.second))))))))))
  }

  /** `YYYY-MM-DDTHH-MM-SS`, the file-name timestamp of recorder.py. */
  function StampPy(t: DateTime): (s: string)
    requires Valid(t)
    ensures |s| == 19
  {
    Layout(t, '-', '-', 'T', '-', '-')
  }

  /** `YYYY-MM-DD HH:MM:SS`, the timestamp of drive.py's upload description. */
  function DescriptionStampPy(t: DateTime): (s: string)
    requires Valid(t)
    ensures |s| == 19
  {
    Layout(t, '-', '-', ' ', ':', ':')
  }

  /** `Date.prototype.toISOString` for a four-digit year:
      `YYYY-MM-DDTHH:MM:SS.mmmZ`. */
  function IsoString(t: DateTime): (s: string)
    requires Valid(t)
    ensures |s| == 24
  {
    Pad4(t.year) + "-" + Pad2(t.month) + "-" + Pad2(t.day) + "T" +
      Pad2(t.hour) + ":" + Pad2(t.minute) + ":" + Pad2(t.second) + "." +
      Pad3(t.millis) + "Z"
  }

  function ColonDotToDash(c: char): char {
    if c == ':' || c == '.' then '-' else c
  }

  /** `s.replace(/[:.]/g, '-')`. */
  function ReplaceColonsAndDots(s: string): (r: string)
    ensures |r| == |s|
    ensures forall i :: 0 <= i < |s| ==> r[i] == ColonDotToDash(s[i])
  {
    seq(|s|, i requires 0 <= i < |s| => ColonDotToDash(s[i]))
  }

  /** The file-name timestamp of recorder.js. */
  function StampJs(t: DateTime): (s: string)
    requires Valid(t)
    ensures |s| == 24
    ensures ':' !in s && '.' !in s
  {
    ReplaceColonsAndDots(IsoString(t))
  }

  lemma ReplaceDistributes(a: string, b: string)
    ensures ReplaceColonsAndDots(a + b) == ReplaceColonsAndDots(a) + ReplaceColonsAndDots(b)
  {
    var l := ReplaceColonsAndDots(a + b);
    var r := ReplaceColonsAndDots(a) + ReplaceColonsAndDots(b);
    forall i | 0 <= i < |l| ensures l[i] == r[i] {
      if i < |a| {
        assert (a + b)[i] == a[i];
      } else {
        assert (a + b)[i] == b[i - |a|];
      }
    }
  }

  lemma ReplaceDigitsUnchanged(s: string)
    requires AllDigits(s)
    ensures ReplaceColonsAndDots(s) == s
  {
  }

  lemma ReplaceFour(a: string, b: string, c: string, d: string)
    ensures ReplaceColonsAndDots(a + b + c + d)
         == ReplaceColonsAndDots(a) + ReplaceColonsAndDots(b) + ReplaceColonsAndDots(c) + ReplaceColonsAndDots(d)
  {
    ReplaceDistributes(a + b + c, d);
    ReplaceDistributes(a + b, c);
    ReplaceDistributes(a, b);
  }

  /** `HH:MM:SS` becomes `HH-MM-SS`. */
  lemma ReplaceTime(h: string, m: string, s: string)
    requires AllDigits(h) && AllDigits(m) && AllDigits(s)
    ensures ReplaceColonsAndDots(h + ":" + m + ":" + s) == h + "-" + m + "-" + s
  {
    ReplaceFour(h + ":", m, ":", s);
    ReplaceDistributes(h, ":");
    ReplaceDigitsUnchanged(h);
    ReplaceDigitsUnchanged(m);
    ReplaceDigitsUnchanged(s);
    assert ReplaceColonsAndDots(":") == "-";
  }

  /** `YYYY-MM-DDT` has neither ':' nor '.'. */
  lemma ReplaceDate(y: string, m: string, d: string)
    requires AllDigits(y) && AllDigits(m) && AllDigits(d)
    ensures ReplaceColonsAndDots(y + "-" + m + "-" + d + "T") == y + "-" + m + "-" + d + "T"
  {
    ReplaceFour(y + "-", m + "-", d, "T");
    ReplaceDistributes(y, "-");
    ReplaceDistributes(m, "-");
    ReplaceDigitsUnchanged(y);
    ReplaceDigitsUnchanged(m);
    ReplaceDigitsUnchanged(d);
    assert ReplaceColonsAndDots("-") == "-";
    assert ReplaceColonsAndDots("T") == "T";
  }

  /** The replacement on a whole ISO string, for any digit fields. */
  lemma ReplaceIsoShape(y: string, mo: string, d: string, h: string, mi: string, s: string, ms: string)
    requires AllDigits(y) && AllDigits(mo) && AllDigits(d)
    requires AllDigits(h) && AllDigits(mi) && AllDigits(s) && AllDigits(ms)
    ensures ReplaceColonsAndDots((y + "-" + mo + "-" + d + "T") + (h + ":" + mi + ":" + s) + "." + ms + "Z")
         == (y + "-" + mo + "-" + d + "T") + (h + "-" + mi + "-" + s) + "-" + ms + "Z"
  {
    var date := y + "-" + mo + "-" + d + "T";
    var time := h + ":" + mi + ":" + s;
    ReplaceFour(date + time, ".", ms, "Z");
    ReplaceDistributes(date, time);
    ReplaceDate(y, mo, d);
    ReplaceTime(h, mi, s);
    ReplaceDigitsUnchanged(ms);
    assert ReplaceColonsAndDots(".") == "-";
    assert ReplaceColonsAndDots("Z") == "Z";
  }

  lemma IsoShape(t: DateTime)
    requires Valid(t)
    ensures IsoString(t)
         == (Pad4(t.year) + "-" + Pad2(t.month) + "-" + Pad2(t.day) + "T")
          + (Pad2(t.hour) + ":" + Pad2(t.minute) + ":" + Pad2(t.second)) + "." + Pad3(t.millis) + "Z"
  {
  }

  lemma StampPyShape(t: DateTime)
    requires Valid(t)
    ensures StampPy(t)
         == (Pad4(t.year) + "-" + Pad2(t.month) + "-" + Pad2(t.day) + "T")
          + (Pad2(t.hour) + "-" + Pad2(t.minute) + "-" + Pad2(t.second))
  {
  }

  /** The JavaScript file-name timestamp is the Python one (read at the same
      instant in the same zone) followed by `-mmmZ`. */
  lemma StampJsExtendsStampPy(t: DateTime)
    requires Valid(t)
    ensures StampJs(t) == StampPy(t) + "-" + Pad3(t.millis) + "Z"
  {
    IsoShape(t);
    StampPyShape(t);
    ReplaceIsoShape(Pad4(t.year), Pad2(t.month), Pad2(t.day),
      Pad2(t.hour), Pad2(t.minute), Pad2(t.second), Pad3(t.millis));
  }

  // ---------------------------------------------------------------------
  // Reading a file-name timestamp back

  /** The second-resolution part of a reading: what `StampPy` keeps. */
  datatype Seconds = Seconds(
    year: nat, month: nat, day: nat, hour: nat, minute: nat, second: nat)

  function ToSeconds(t: DateTime): Seconds {
    Seconds(t.year, t.month, t.day, t.hour, t.minute, t.second)
  }

  datatype Field = Field(value: nat, rest: string)

  /** Reads exactly `w` digits off the front of `s`. */
  function ReadField(s: string, w: nat): Option<Field> {
    if |s| >= w && AllDigits(s[..w]) then Some(Field(DigitsValue(s[..w]), s[w..])) else None
  }

  /** Consumes the separator `c` off the front of `s`. */
  function Expect(s: string, c: char): Option<string> {
    if |s| >= 1 && s[0] == c then Some(s[1..]) else None
  }

  /** Parses the layout with separators `a` to `e`. */
  function ParseLayout(s: string, a: char, b: char, c: char, d: char, e: char): Option<Seconds> {
    var y :- ReadField(s, 4);
    var r1 :- Expect(y.rest, a);
    var mo :- ReadField(r1, 2);
    var r2 :- Expect(mo.rest, b);
    var dd :- ReadField(r2, 2);
    var r3 :- Expect(dd.rest, c);
    var h :- ReadField(r3, 2);
    var r4 :- Expect(h.rest, d);
    var mi :- ReadField(r4, 2);
    var r5 :- Expect(mi.rest, e);
    var sec :- ReadField(r5, 2);
    if sec.rest == "" then Some(Seconds(y.value, mo.value, dd.value, h.value, mi.value, sec.value))
    else None
  }

  /** Parses `YYYY-MM-DDTHH-MM-SS`. */
  function ParseStampPy(s: string): Option<Seconds> {
    ParseLayout(s, '-', '-', 'T', '-', '-')
  }

  lemma ReadPadded(n: nat, w: nat, rest: string)
    requires 1 <= w && n < Pow10(w)
    ensures ReadField(ZeroPad(n, w) + rest, w) == Some(Field(n, rest))
  {
    var p := ZeroPad(n, w);
    assert (p + rest)[..w] == p;
    assert (p + rest)[w..] == rest;
  }

  lemma ExpectSeparator(c: char, rest: string)
    ensures Expect([c] + rest, c) == Some(rest)
  {
  }

  /** Reading the layout back gives the reading to the second. */
  lemma LayoutRoundTrip(t: DateTime, a: char, b: char, c: char, d: char, e: char)
    requires Valid(t)
    ensures ParseLayout(Layout(t, a, b, c, d, e), a, b, c, d, e) == Some(ToSeconds(t))
  {
    assert Pow10(2) == 100 && Pow10(4) == 10000;
    var sec := Pad2(t.second);
    var r5 := [e] + sec;
    var mi := Pad2(t.minute) + r5;
    var r4 := [d] + mi;
    var h := Pad2(t.hour) + r4;
    var r3 := [c] + h;
    var dd := Pad2(t.day) + r3;
    var r2 := [b] + dd;
    var mo := Pad2(t.month) + r2;
    var r1 := [a] + mo;
    assert Layout(t, a, b, c, d, e) == Pad4(t.year) + r1;
    ReadPadded(t.year, 4, r1);
    ExpectSeparator(a, mo);
    ReadPadded(t.month, 2, r2);
    ExpectSeparator(b, dd);
    ReadPadded(t.day, 2, r3);
    ExpectSeparator(c, h);
    ReadPadded(t.hour, 2, r4);
    ExpectSeparator(d, mi);
    ReadPadded(t.minute, 2, r5);
    ExpectSeparator(e, sec);
    ReadPadded(t.second, 2, "");
    assert sec + "" == sec;
  }

  /** With the same separators, two readings give the same layout exactly
      when they agree to the second. */
  lemma LayoutInjectiveToTheSecond(t: DateTime, u: DateTime, a: char, b: char, c: char, d: char, e: char)
    requires Valid(t) && Valid(u)
    ensures Layout(t, a, b, c, d, e) == Layout(u, a, b, c, d, e) <==> ToSeconds(t) == ToSeconds(u)
  {
    if Layout(t, a, b, c, d, e) == Layout(u, a, b, c, d, e) {
      LayoutRoundTrip(t, a, b, c, d, e);
      LayoutRoundTrip(u, a, b, c, d, e);
    }
  }

  /** Reading the file-name timestamp back gives the reading to the second. */
  lemma StampPyRoundTrip(t: DateTime)
    requires Valid(t)
    ensures ParseStampPy(StampPy(t)) == Some(ToSeconds(t))
  {
    LayoutRoundTrip(t, '-', '-', 'T', '-', '-');
  }

  /** Two readings print the same file-name timestamp exactly when they
      agree to the second; readings within the same second collide. */
  lemma StampPyInjectiveToTheSecond(t: DateTime, u: DateTime)
    requires Valid(t) && Valid(u)
    ensures StampPy(t) == StampPy(u) <==> ToSeconds(t) == ToSeconds(u)
  {
    LayoutInjectiveToTheSecond(t, u, '-', '-', 'T', '-', '-');
  }
}
