/** File extensions and the MIME table of the upload code: Python's
    `os.path.splitext` (posixpath), Node's `path.extname` (posix), and the
    five-entry table shared by `get_mime_type` (drive.py) and `getMimeType`
    (drive.js). */
module Media {
  import opened Strings

  const OctetStream: string := "application/octet-stream"

  /** The table, applied to an already lower-cased extension. */
  function MimeForExt(ext: string): (m: string)
    ensures m != OctetStream <==> ext in {".mp3", ".wav", ".ogg", ".m4a", ".flac"}
  {
    if ext == ".mp3" then "audio/mpeg"
    else if ext == ".wav" then "audio/wav"
    else if ext == ".ogg" then "audio/ogg"
    else if ext == ".m4a" then "audio/mp4"
    else if ext == ".flac" then "audio/flac"
    else OctetStream
  }

  /** Some character of `s[lo..hi]` is not a dot. */
  predicate HasNonDot(s: string, lo: int, hi: int)
    requires 0 <= lo <= hi <= |s|
  {
    exists j :: lo <= j < hi && s[j] != '.'
  }

  /** Where `posixpath.splitext(p)` splits: at the last '.' of the last path
      component, provided something other than dots precedes it in that
      component; otherwise at the end (no extension). */
  function ExtStartPy(p: string): (k: int)
    ensures 0 <= k <= |p|
    ensures k < |p| ==> p[k] == '.' && k > 0
  {
    var sep := LastIndexOf(p, '/');
    var dot := LastIndexOf(p, '.');
    if dot > sep && HasNonDot(p, sep + 1, dot) then dot else |p|
  }

  /** The extension `posixpath.splitext(p)[1]`. */
  function ExtPy(p: string): (e: string)
    ensures e == "" || (e[0] == '.' && |e| < |p|)
  {
    var k := ExtStartPy(p);
    SuffixFirst(p, k);
    Suffix(p, k)
  }

  /** `p` with its trailing '/' characters removed. */
  function StripTrailingSlashes(p: string): (q: string)
    ensures |q| <= |p|
    ensures q == "" || q[|q| - 1] != '/'
  {
    p[..SlashRunStart(p, |p|)]
  }

  /** Where the run of '/' that ends just before index `n` starts. */
  function SlashRunStart(p: string, n: nat): (k: nat)
    requires n <= |p|
    ensures k <= n
    ensures k == 0 || p[k - 1] != '/'
    ensures forall j :: k <= j < n ==> p[j] == '/'
  {
    if n == 0 || p[n - 1] != '/' then n else SlashRunStart(p, n - 1)
  }

  /** What `StripTrailingSlashes` removes is a run of '/' at the end. */
  lemma StripShape(p: string)
    ensures var q := StripTrailingSlashes(p);
      && q == p[..|q|]
      && forall j :: |q| <= j < |p| ==> p[j] == '/'
  {
  }

  /** Where Node's `path.posix.extname` cuts `q`, a path without trailing
      slashes: at the last '.' of the last component, except when that dot
      is the component's first character or the component is "..", which
      have no extension (the cut is then at the end). Node scans the path
      from the end with indexes; so does this definition. */
  function ExtStartJs(q: string): (k: int)
    ensures 0 <= k <= |q|
    ensures k < |q| ==> q[k] == '.' && k > 0
  {
    var sep := LastIndexOf(q, '/');
    var dot := LastIndexOf(q, '.');
    if dot <= sep + 1 || IsDotDot(q, sep) then |q| else dot
  }

  /** The component after index `sep` is exactly "..". */
  predicate IsDotDot(q: string, sep: int)
    requires -1 <= sep < |q|
  {
    |q| == sep + 3 && q[sep + 1] == '.' && q[sep + 2] == '.'
  }

  /** Node's `path.posix.extname(p)`: trailing slashes are ignored. */
  function ExtJs(p: string): (e: string)
    ensures e == "" || (e[0] == '.' && |e| < |p|)
  {
    var q := StripTrailingSlashes(p);
    var k := ExtStartJs(q);
    SuffixFirst(q, k);
    Suffix(q, k)
  }

  /** Both extensions lie inside the last path component: neither holds a
      '/', and each is a tail of the path (for Node, of the path without its
      trailing slashes). */
  lemma ExtensionShape(p: string)
    ensures '/' !in ExtPy(p) && '/' !in ExtJs(p)
    ensures ExtPy(p) == Suffix(p, |p| - |ExtPy(p)|)
    ensures var q := StripTrailingSlashes(p);
      |ExtJs(p)| <= |q| && ExtJs(p) == Suffix(q, |q| - |ExtJs(p)|)
  {
    NotInSuffix(p, ExtStartPy(p), '/');
    var q := StripTrailingSlashes(p);
    NotInSuffix(q, ExtStartJs(q), '/');
  }

  /** `get_mime_type` of drive.py. */
  function MimeTypePy(fileName: string): (m: string)
    ensures m != OctetStream <==> LowerAscii(ExtPy(fileName)) in {".mp3", ".wav", ".ogg", ".m4a", ".flac"}
  {
    MimeForExt(LowerAscii(ExtPy(fileName)))
  }

  /** `getMimeType` of drive.js. */
  function MimeTypeJs(fileName: string): (m: string)
    ensures m != OctetStream <==> LowerAscii(ExtJs(fileName)) in {".mp3", ".wav", ".ogg", ".m4a", ".flac"}
  {
    MimeForExt(LowerAscii(ExtJs(fileName)))
  }

  /** Case does not matter to the lookup. */
  lemma MimeCaseInsensitive(ext: string)
    ensures MimeForExt(LowerAscii(LowerAscii(ext))) == MimeForExt(LowerAscii(ext))
  {
    var a := LowerAscii(LowerAscii(ext));
    var b := LowerAscii(ext);
    assert forall i :: 0 <= i < |a| ==> a[i] == b[i];
  }

  /** A file name that ends in `.` followed by an extension free of '.' and
      '/', and whose base does not start with a dot, has that extension in
      both languages. */
  lemma ExtOfSuffix(stem: string, ext: string)
    requires stem != "" && stem[0] != '.' && '/' !in stem
    requires '.' !in ext && '/' !in ext
    ensures ExtPy(stem + "." + ext) == "." + ext
    ensures ExtJs(stem + "." + ext) == "." + ext
  {
    var p := stem + "." + ext;
    StemDotExt(stem, ext);
    assert HasNonDot(p, 0, |stem|) by {
      assert p[0] != '.';
    }
    assert ExtStartPy(p) == |stem|;
    assert ExtStartJs(p) == |stem|;
  }

  /** Where the separators of `stem + "." + ext` are. */
  lemma StemDotExt(stem: string, ext: string)
    requires stem != "" && '/' !in stem
    requires '.' !in ext && '/' !in ext
    ensures var p := stem + "." + ext;
      && p[0] == stem[0]
      && LastIndexOf(p, '.') == |stem|
      && LastIndexOf(p, '/') == -1
      && Suffix(p, |stem|) == "." + ext
      && StripTrailingSlashes(p) == p
  {
    StemDotExtSeparators(stem, ext);
    AppendAssoc(stem, ".", ext);
    SuffixOfAppend(stem, "." + ext);
  }

  lemma StemDotExtSeparators(stem: string, ext: string)
    requires stem != "" && '/' !in stem
    requires '.' !in ext && '/' !in ext
    ensures var p := stem + "." + ext;
      && p[0] == stem[0]
      && LastIndexOf(p, '.') == |stem|
      && LastIndexOf(p, '/') == -1
      && StripTrailingSlashes(p) == p
  {
    var p := stem + "." + ext;
    assert p[|stem|] == '.';
    assert forall j :: |stem| < j < |p| ==> p[j] == ext[j - |stem| - 1];
    assert forall j :: 0 <= j < |p| ==> p[j] != '/';
    NothingToStrip(p);
  }

  /** Only the last extension counts: `a.mp3.txt` is not audio. */
  lemma LastExtensionCounts()
    ensures MimeTypePy("a.mp3.txt") == OctetStream
    ensures MimeTypeJs("a.mp3.txt") == OctetStream
  {
    TxtIsLastExtension();
    TxtIsNotAudio();
  }

  lemma TxtIsLastExtension()
    ensures ExtPy("a.mp3.txt") == ".txt" && ExtJs("a.mp3.txt") == ".txt"
  {
    assert "a.mp3" + "." + "txt" == "a.mp3.txt";
    ExtOfSuffix("a.mp3", "txt");
  }

  lemma TxtIsNotAudio()
    ensures MimeForExt(LowerAscii(".txt")) == OctetStream
  {
    assert LowerAscii(".txt") == ".txt";
  }

  /** The two extension functions disagree on a base name made of leading
      dots and an extension: Python sees none, Node sees `.mp3`. */
  lemma LeadingDotsDiverge()
    ensures MimeTypePy("..mp3") == OctetStream
    ensures MimeTypeJs("..mp3") == "audio/mpeg"
  {
    var p := "..mp3";
    assert p[1] == '.' && p[2] == 'm' && p[3] == 'p' && p[4] == '3';
    assert LastIndexOf(p, '/') == -1;
    assert LastIndexOf(p, '.') == 1;
    assert !HasNonDot(p, 0, 1);
    assert ExtStartPy(p) == |p|;
    assert ExtPy(p) == "";
    assert LowerAscii("") == "";
    NothingToStrip(p);
    assert ExtStartJs(p) == 1;
    assert p == "." + ".mp3";
    SuffixOfAppend(".", ".mp3");
    assert ExtJs(p) == ".mp3";
    assert LowerAscii(".mp3") == ".mp3";
  }

  /** Outside that corner the two agree: for a path without trailing '/'
      whose last component does not start with '.', both give the same
      extension. */
  lemma ExtensionsAgree(p: string)
    requires p != "" && p[|p| - 1] != '/'
    requires LastIndexOf(p, '/') + 1 < |p| && p[LastIndexOf(p, '/') + 1] != '.'
    ensures ExtPy(p) == ExtJs(p)
  {
    NothingToStrip(p);
    ExtStartsAgree(p);
  }

  /** For such a path both split at the same index. */
  lemma ExtStartsAgree(p: string)
    requires LastIndexOf(p, '/') + 1 < |p| && p[LastIndexOf(p, '/') + 1] != '.'
    ensures ExtStartPy(p) == ExtStartJs(p)
  {
    var sep := LastIndexOf(p, '/');
    var dot := LastIndexOf(p, '.');
    if dot > sep {
      assert dot != sep + 1;
      assert HasNonDot(p, sep + 1, dot) by {
        assert p[sep + 1] != '.';
      }
    }
  }

  lemma NothingToStrip(p: string)
    requires p != "" && p[|p| - 1] != '/'
    ensures StripTrailingSlashes(p) == p
  {
  }
}
