/** The helpers of utils.py: `sanitize_filename`, `format_duration` and the
    dotted-key `get_config` lookup. */
module UtilsPy {
  import opened Wrappers
  import opened Numerals
  import opened Strings
  import opened Charsets
  import opened JsonValues

  // ---------------------------------------------------------------------
  // sanitize_filename

  /** `re.sub(r'[^\w\-\.]', '_', filename)`. */
  function SanitizeFilename(filename: string): (r: string)
    ensures |r| == |filename|
    ensures forall i :: 0 <= i < |r| ==> Keeps(FileNamePy, r[i])
    ensures forall i :: 0 <= i < |r| && Keeps(FileNamePy, filename[i]) ==> r[i] == filename[i]
  {
    SanitisedIsKept(filename, FileNamePy);
    ReplaceDisallowed(filename, FileNamePy)
  }

  /** Sanitising a sanitised name changes nothing. */
  lemma SanitizeFilenameIdempotent(filename: string)
    ensures SanitizeFilename(SanitizeFilename(filename)) == SanitizeFilename(filename)
  {
    ReplaceDisallowedIdempotent(filename, FileNamePy);
  }

  /** Unlike the JavaScript sanitiser, this one keeps runs of dots and a
      leading dot: ".." passes through unchanged. */
  lemma SanitizeFilenameKeepsDots()
    ensures SanitizeFilename("..") == ".."
  {
    KeptStringUnchanged("..", FileNamePy);
  }

  // ---------------------------------------------------------------------
  // format_duration

  const Hours: string := "時間"
  const Minutes: string := "分"
  const SecondsUnit: string := "秒"

  /** `format_duration(seconds)` for an integral `seconds`: Python's `divmod`
      floors, so minutes and seconds are in 0..59 even for negative input,
      and only hours carry the sign. */
  function FormatDuration(seconds: int): (r: string)
    ensures |r| >= 2 && r[|r| - 1] == '秒'
    ensures seconds >= 0 ==> ('時' in r <==> seconds >= 3600)
    ensures seconds >= 0 ==> ('分' in r <==> seconds >= 60)
  {
    var minutes, secs := seconds / 60, seconds % 60;
    var hours, mins := minutes / 60, minutes % 60;
    if hours > 0 then
      NoUnitInDigits(IntToString(hours));
      NoUnitInDigits(IntToString(mins));
      NoUnitInDigits(IntToString(secs));
      IntToString(hours) + (Hours + (IntToString(mins) + (Minutes + (IntToString(secs) + SecondsUnit))))
    else if mins > 0 then
      NoUnitInDigits(IntToString(mins));
      NoUnitInDigits(IntToString(secs));
      IntToString(mins) + (Minutes + (IntToString(secs) + SecondsUnit))
    else
      NoUnitInDigits(IntToString(secs));
      IntToString(secs) + SecondsUnit
  }

  lemma NoUnitInDigits(s: string)
    requires AllDigits(s)
    ensures '時' !in s && '間' !in s && '分' !in s && '秒' !in s
  {
  }

  /** The text shown for `h` hours, `m` minutes and `s` seconds. */
  function Shown(h: nat, m: nat, s: nat): string {
    if h > 0 then NatToString(h) + (Hours + (NatToString(m) + (Minutes + (NatToString(s) + SecondsUnit))))
    else if m > 0 then NatToString(m) + (Minutes + (NatToString(s) + SecondsUnit))
    else NatToString(s) + SecondsUnit
  }

  /** For a non-negative count, the text shows the hours, minutes and
      seconds that decompose it as h·3600 + m·60 + s with m and s below 60,
      leaving out zero hours and, with them, zero minutes. */
  lemma FormatDurationDecomposes(seconds: nat) returns (h: nat, m: nat, s: nat)
    ensures m < 60 && s < 60 && seconds == h * 3600 + m * 60 + s
    ensures FormatDuration(seconds) == Shown(h, m, s)
  {
    h, m, s := seconds / 60 / 60, seconds / 60 % 60, seconds % 60;
  }

  /** A printed number followed by a unit splits in one way only. */
  lemma NumberPrefixUnique(a: nat, b: nat, x: string, y: string)
    requires x != [] && !IsDigit(x[0]) && y != [] && !IsDigit(y[0])
    requires NatToString(a) + x == NatToString(b) + y
    ensures a == b && x == y
  {
    ReadNumberRoundTrip(a, x);
    ReadNumberRoundTrip(b, y);
  }

  /** The leading number of a shown duration and what follows it. */
  function Lead(h: nat, m: nat, s: nat): nat {
    if h > 0 then h else if m > 0 then m else s
  }

  function AfterLead(h: nat, m: nat, s: nat): (t: string)
    ensures t != [] && !IsDigit(t[0])
    ensures Shown(h, m, s) == NatToString(Lead(h, m, s)) + t
    ensures t[0] == '時' <==> h > 0
    ensures t[0] == '分' <==> h == 0 && m > 0
  {
    if h > 0 then Hours + (NatToString(m) + (Minutes + (NatToString(s) + SecondsUnit)))
    else if m > 0 then Minutes + (NatToString(s) + SecondsUnit)
    else SecondsUnit
  }

  lemma MinutesTailUnique(m: nat, s: nat, m': nat, s': nat)
    requires NatToString(m) + (Minutes + (NatToString(s) + SecondsUnit))
          == NatToString(m') + (Minutes + (NatToString(s') + SecondsUnit))
    ensures m == m' && s == s'
  {
    var x, x' := NatToString(s) + SecondsUnit, NatToString(s') + SecondsUnit;
    NumberPrefixUnique(m, m', Minutes + x, Minutes + x');
    DropUnit(Minutes, x, x');
    NumberPrefixUnique(s, s', SecondsUnit, SecondsUnit);
  }

  lemma DropUnit(u: string, x: string, x': string)
    requires |u| >= 1 && u + x == u + x'
    ensures x == x'
  {
    assert (u + x)[|u|..] == x;
    assert (u + x')[|u|..] == x';
  }

  /** Different shown triples are different texts. */
  lemma ShownInjective(h: nat, m: nat, s: nat, h': nat, m': nat, s': nat)
    requires m < 60 && s < 60 && m' < 60 && s' < 60
    requires Shown(h, m, s) == Shown(h', m', s')
    ensures h == h' && m == m' && s == s'
  {
    var t, t' := AfterLead(h, m, s), AfterLead(h', m', s');
    NumberPrefixUnique(Lead(h, m, s), Lead(h', m', s'), t, t');
    if h > 0 {
      var r := NatToString(m) + (Minutes + (NatToString(s) + SecondsUnit));
      var r' := NatToString(m') + (Minutes + (NatToString(s') + SecondsUnit));
      DropUnit(Hours, r, r');
      MinutesTailUnique(m, s, m', s');
    } else if m > 0 {
      DropUnit(Minutes, NatToString(s) + SecondsUnit, NatToString(s') + SecondsUnit);
      NumberPrefixUnique(s, s', SecondsUnit, SecondsUnit);
    }
  }

  /** Two non-negative counts format alike exactly when they are equal:
      the text determines the duration. */
  lemma FormatDurationInjective(a: nat, b: nat)
    ensures FormatDuration(a) == FormatDuration(b) <==> a == b
  {
    if FormatDuration(a) == FormatDuration(b) {
      var h, m, s := FormatDurationDecomposes(a);
      var h', m', s' := FormatDurationDecomposes(b);
      ShownInjective(h, m, s, h', m', s');
    }
  }

  /** A negative count never shows hours, and shows its minutes and seconds
      counted up from the hour below: -1 reads as 59 minutes 59 seconds. */
  lemma FormatNegativeDuration()
    ensures FormatDuration(-1) == "59分59秒"
  {
    assert IntToString(59) == "59";
  }

  // ---------------------------------------------------------------------
  // get_config

  /** Python `part in value` followed by `value[part]`, one step of the walk
      down a dotted key. `Success(None)` means the part is missing and the
      default is returned; a failure is the exception that the surrounding
      `except` turns into the default. */
  function WalkStep(value: Json, part: string): (r: Result<Option<Json>, PyError>)
    ensures r.Success? && r.value.Some? ==> value.JObj? && part in value.fields && r.value.value == value.fields[part]
    ensures value.JObj? ==> r == Success(if part in value.fields then Some(value.fields[part]) else None)
  {
    var present :- PyContains(value, part);
    if present then
      var v :- PyIndex(value, part);
      Success(Some(v))
    else Success(None)
  }

  /** The loop of `get_config` over the parts of a dotted key. */
  function Walk(value: Json, parts: seq<string>, default: Json): Result<Json, PyError> {
    if |parts| == 0 then Success(value)
    else
      var next :- WalkStep(value, parts[0]);
      match next
      case None => Success(default)
      case Some(v) => Walk(v, parts[1..], default)
  }

  /** `get_config(key, default)` given what `json.load` made of config.json
      (None when the file could not be read or parsed). */
  function GetConfig(loaded: Option<Json>, key: Option<string>, default: Json): (r: Json)
    ensures loaded.None? ==> r == default
    ensures loaded.Some? && key.None? ==> r == loaded.value
    ensures loaded.Some? && key.Some? && '.' !in key.value ==>
              r == (if loaded.value.JObj? && key.value in loaded.value.fields
                    then loaded.value.fields[key.value] else default)
    ensures loaded.Some? && key.Some? && '.' in key.value ==>
              r == LookupPath(loaded.value, Split(key.value, '.'), default)
  {
    match loaded
    case None => default
    case Some(config) =>
      match key
      case None => config
      case Some(k) =>
        if '.' in k then
          WalkIsLookup(config, Split(k, '.'), default);
          match Walk(config, Split(k, '.'), default)
          case Success(v) => v
          case Failure(_) => default
        else if config.JObj? then
          if k in config.fields then config.fields[k] else default
        else default
  }

  /** The reference reading of a dotted key: follow the parts through nested
      objects; anything that is not an object holding the part yields the
      default. */
  function LookupPath(value: Json, parts: seq<string>, default: Json): Json {
    if |parts| == 0 then value
    else if value.JObj? && parts[0] in value.fields then LookupPath(value.fields[parts[0]], parts[1..], default)
    else default
  }

  /** The walk with its `in` tests, subscriptions and caught exceptions is
      the plain nested-object lookup: a missing part, a list, a string or a
      scalar on the way all give the default. */
  lemma {:induction false} WalkIsLookup(value: Json, parts: seq<string>, default: Json)
    ensures (match Walk(value, parts, default) case Success(v) => v case Failure(_) => default)
         == LookupPath(value, parts, default)
  {
    if |parts| > 0 {
      if value.JObj? {
        if parts[0] in value.fields {
          WalkIsLookup(value.fields[parts[0]], parts[1..], default);
        }
      } else {
        assert WalkStep(value, parts[0]).Failure? || WalkStep(value, parts[0]) == Success(None);
      }
    }
  }

  /** The config holding `leaf` under the nested keys `parts`. */
  function Nest(parts: seq<string>, leaf: Json): Json {
    if |parts| == 0 then leaf else JObj(map[parts[0] := Nest(parts[1..], leaf)])
  }

  lemma {:induction false} LookupNest(parts: seq<string>, leaf: Json, default: Json)
    ensures LookupPath(Nest(parts, leaf), parts, default) == leaf
  {
    if |parts| > 0 {
      LookupNest(parts[1..], leaf, default);
    }
  }

  /** A value stored under nested keys is found again by the dotted key that
      joins them. */
  lemma DottedKeyFindsNestedValue(parts: seq<string>, leaf: Json, default: Json)
    requires |parts| >= 2
    requires forall i :: 0 <= i < |parts| ==> '.' !in parts[i]
    ensures GetConfig(Some(Nest(parts, leaf)), Some(Join(parts, '.')), default) == leaf
  {
    var key := Join(parts, '.');
    SplitJoin(parts, '.');
    JoinCons(parts[0], parts[1..], '.');
    assert parts == [parts[0]] + parts[1..];
    assert key[|parts[0]|] == '.';
    LookupNest(parts, leaf, default);
  }

  /** A dotted key whose walk reaches an object lacking the next part gives
      the default, whatever the later parts are. */
  lemma MissingPartGivesDefault(config: Json, key: string, default: Json, i: nat)
    requires '.' in key
    requires i < |Split(key, '.')|
    requires LookupPath(config, Split(key, '.')[..i], JNull).JObj?
    requires Split(key, '.')[i] !in LookupPath(config, Split(key, '.')[..i], JNull).fields
    ensures GetConfig(Some(config), Some(key), default) == default
  {
    MissingPartStep(config, Split(key, '.'), default, i);
  }

  lemma {:induction false} MissingPartStep(config: Json, parts: seq<string>, default: Json, i: nat)
    requires i < |parts|
    requires LookupPath(config, parts[..i], JNull).JObj?
    requires parts[i] !in LookupPath(config, parts[..i], JNull).fields
    ensures LookupPath(config, parts, default) == default
    decreases i
  {
    if i == 0 {
      assert parts[..0] == [];
    } else {
      assert parts[..i][0] == parts[0];
      assert parts[..i][1..] == parts[1..][..i - 1];
      assert config.JObj? && parts[0] in config.fields;
      MissingPartStep(config.fields[parts[0]], parts[1..], default, i - 1);
    }
  }
}
