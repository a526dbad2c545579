/** recorder.py: the sink chosen for the configured format, the recording's
    file name and path, and the sequence of steps `stop_recording` takes
    before it hands the file to drive.py. */
module RecorderPy {
  import opened Wrappers
  import opened Strings
  import opened Charsets
  import opened JsonValues
  import opened Timestamps
  import opened Config
  import opened Media
  import opened Drive
  import opened Recording
  import DrivePy

  // ---------------------------------------------------------------------
  // Sink

  datatype SinkKind = MP3Sink | WaveSink | OGGSink

  /** The sink and the bitrate filter handed to it. */
  datatype SinkSetup = SinkSetup(kind: SinkKind, bitrate: int)

  /** `get_sink_class(format_name)`: the lower-cased name looked up in a
      three-entry table, MP3 otherwise. */
  function GetSinkClass(formatName: string): (k: SinkKind)
    ensures k == WaveSink <==> LowerAscii(formatName) == "wav"
    ensures k == OGGSink <==> LowerAscii(formatName) == "ogg"
    ensures k == MP3Sink <==> LowerAscii(formatName) != "wav" && LowerAscii(formatName) != "ogg"
  {
    var f := LowerAscii(formatName);
    if f == "mp3" then MP3Sink
    else if f == "wav" then WaveSink
    else if f == "ogg" then OGGSink
    else MP3Sink
  }

  /** Case does not matter: "WAV", "Wav" and "wav" pick the same sink. */
  lemma SinkIgnoresCase(a: string, b: string)
    requires LowerAscii(a) == LowerAscii(b)
    ensures GetSinkClass(a) == GetSinkClass(b)
  {
  }

  /** `config.get('recordingBitrate', 128) * 1000`: kilobits to bits. */
  function BitrateFilter(config: Config): (b: int)
    ensures config.recordingBitrate.None? ==> b == 128000
    ensures b % 1000 == 0 && b / 1000 == config.recordingBitrate.GetOr(128)
  {
    config.recordingBitrate.GetOr(128) * 1000
  }

  /** The MIME type Drive is told for each sink's format. */
  function SinkMime(k: SinkKind): string {
    match k
    case MP3Sink => "audio/mpeg"
    case WaveSink => "audio/wav"
    case OGGSink => "audio/ogg"
  }

  // ---------------------------------------------------------------------
  // File name and path

  /** The channel-name sanitiser of `start_recording`: alphanumerics, '-'
      and '_' are kept, every other character becomes '_'. */
  function SanitizeChannelName(name: string): (r: string)
    ensures |r| == |name|
    ensures forall i :: 0 <= i < |r| ==> Keeps(ChannelNamePy, r[i])
    ensures forall i :: 0 <= i < |r| && Keeps(ChannelNamePy, name[i]) ==> r[i] == name[i]
    ensures '/' !in r && '.' !in r
  {
    SanitisedIsKept(name, ChannelNamePy);
    ReplaceDisallowed(name, ChannelNamePy)
  }

  /** `f"{timestamp}_{sanitized_channel_name}.{recordingFormat}"`. */
  function Filename(now: DateTime, channelName: string, format: string): (f: string)
    requires Valid(now)
    ensures |f| == 21 + |channelName| + |format|
    ensures f[..19] == StampPy(now)
  {
    StampPy(now) + "_" + SanitizeChannelName(channelName) + "." + format
  }

  /** `os.path.join(a, b)` (posixpath): an absolute `b` wins, otherwise `b`
      is appended after a '/' unless `a` is empty or already ends in one. */
  function PathJoin(a: string, b: string): (p: string)
    ensures b != "" && b[0] == '/' ==> p == b
    ensures (b == "" || b[0] != '/') && (a == "" || a[|a| - 1] == '/') ==> p == a + b
    ensures (b == "" || b[0] != '/') && a != "" && a[|a| - 1] != '/' ==> p == a + "/" + b
  {
    if b != "" && b[0] == '/' then b
    else if a == "" || a[|a| - 1] == '/' then a + b
    else a + "/" + b
  }

  /** `os.path.dirname(p)` (posixpath): everything up to the last '/', with
      trailing slashes removed unless that part is all slashes. */
  function DirName(p: string): (d: string)
    ensures '/' !in p ==> d == ""
  {
    var head := p[..LastIndexOf(p, '/') + 1];
    if head != "" && exists j :: 0 <= j < |head| && head[j] != '/' then StripTrailingSlashes(head) else head
  }

  /** What `start_recording` keeps about a started recording. */
  datatype SessionPy = SessionPy(outputPath: string, filename: string, sink: SinkSetup, startMicros: int)

  /** `start_recording(voice_client, channel, logger)`: `now` is the wall
      clock used for the name, `startMicros` the clock reading stored as
      the start time, `startOk` whether the voice client accepted the sink
      (otherwise the exception propagates: None). */
  function StartRecording(config: Config, now: DateTime, startMicros: int, channelName: string, startOk: bool): (s: Option<SessionPy>)
    requires Valid(now)
    ensures s.Some? <==> startOk
    ensures s.Some? ==> s.value.filename == Filename(now, channelName, config.recordingFormat)
    ensures s.Some? ==> s.value.outputPath == PathJoin(config.localStoragePath, s.value.filename)
    ensures s.Some? ==> s.value.sink == SinkSetup(GetSinkClass(config.recordingFormat), BitrateFilter(config))
    ensures s.Some? ==> s.value.startMicros == startMicros
  {
    var filename := Filename(now, channelName, config.recordingFormat);
    if startOk then
      Some(SessionPy(PathJoin(config.localStoragePath, filename), filename,
                     SinkSetup(GetSinkClass(config.recordingFormat), BitrateFilter(config)), startMicros))
    else None
  }

  // ---------------------------------------------------------------------
  // Stopping

  /** One user's captured audio. */
  datatype Track = Track(user: nat, data: seq<bv8>)

  /** The answers of everything `stop_recording` touches: whether the voice
      client stops, whether `makedirs` succeeds on a non-empty directory,
      the sink's audio per user in dict order, whether the write succeeds,
      the upload's environment, and whether the unlink succeeds. */
  datatype StopEnvPy = StopEnvPy(
    stopOk: bool,
    makedirsOk: bool,
    audio: seq<Track>,
    writeOk: bool,
    drive: DrivePy.EnvPy,
    unlinkOk: bool)

  /** What one `stop_recording` call does and returns. */
  datatype StopReportPy = StopReportPy(
    result: Option<Outcome>,
    captureStopped: bool,
    written: Option<seq<bv8>>,
    upload: Option<DrivePy.UploadPy>,
    deleted: bool)

  const MinimumMicros: int := 3000000

  /** The steps of `stop_recording` before the upload succeeded in getting
      the file written: the duration check, stopping the capture, creating
      the directory, and checking and writing the audio. */
  predicate WritesFile(session: SessionPy, nowMicros: int, env: StopEnvPy) {
    && nowMicros - session.startMicros >= MinimumMicros
    && env.stopOk
    && DirName(session.outputPath) != "" && env.makedirsOk
    && |env.audio| > 0
    && env.writeOk
  }

  /** `stop_recording(recording_session, channel, logger)`. `nowMicros` is
      the clock reading for the duration, `wall` the time the upload
      description shows. Every exception outside the upload's own `try`
      makes it return None. */
  function StopRecording(session: SessionPy, channelName: string, config: Config, nowMicros: int, wall: DateTime, env: StopEnvPy): (r: StopReportPy)
    requires Valid(wall)
    ensures nowMicros - session.startMicros < MinimumMicros ==> r == StopReportPy(None, false, None, None, false)
    ensures r.captureStopped <==> nowMicros - session.startMicros >= MinimumMicros && env.stopOk
    ensures r.result.Some? <==> WritesFile(session, nowMicros, env)
    ensures r.written.Some? <==> r.result.Some?
    ensures r.written.Some? ==> r.written.value == env.audio[0].data
    ensures r.upload.Some? <==> r.result.Some?
    ensures r.upload.Some? ==>
              r.upload.value == DrivePy.UploadToDrive(session.filename, channelName, config, wall, env.drive)
    ensures r.result.Some? ==>
              r.result.value.filename == session.filename &&
              r.result.value.duration == nowMicros - session.startMicros
    ensures r.result.Some? ==>
              (r.result.value.Uploaded? <==>
                 r.upload.value.result.Success? && (!AutoDeletePy(config) || env.unlinkOk))
    ensures r.result.Some? && r.result.value.Uploaded? ==>
              r.result.value.driveLink == r.upload.value.result.value.webViewLink &&
              r.result.value.driveId == r.upload.value.result.value.id
    ensures r.result.Some? && r.result.value.UploadFailed? ==> r.result.value.localPath == session.outputPath
    ensures r.result.Some? && r.upload.value.result.Failure? ==>
              r.result.value == UploadFailed(session.filename, nowMicros - session.startMicros, session.outputPath,
                                             DriveError(r.upload.value.result.error))
    ensures r.deleted <==> r.result.Some? && r.result.value.Uploaded? && AutoDeletePy(config)
  {
    var duration := nowMicros - session.startMicros;
    if duration < MinimumMicros then StopReportPy(None, false, None, None, false)
    else if !env.stopOk then StopReportPy(None, false, None, None, false)
    else if DirName(session.outputPath) == "" || !env.makedirsOk then StopReportPy(None, true, None, None, false)
    else if |env.audio| == 0 then StopReportPy(None, true, None, None, false)
    else if !env.writeOk then StopReportPy(None, true, None, None, false)
    else
      var up := DrivePy.UploadToDrive(session.filename, channelName, config, wall, env.drive);
      var written := Some(env.audio[0].data);
      match up.result
      case Failure(e) =>
        StopReportPy(Some(UploadFailed(session.filename, duration, session.outputPath, DriveError(e))),
                     true, written, Some(up), false)
      case Success(file) =>
        if AutoDeletePy(config) && !env.unlinkOk then
          StopReportPy(Some(UploadFailed(session.filename, duration, session.outputPath, DeleteFailed)),
                       true, written, Some(up), false)
        else
          StopReportPy(Some(Uploaded(session.filename, duration, file.webViewLink, file.id)),
                       true, written, Some(up), AutoDeletePy(config))
  }

  // ---------------------------------------------------------------------
  // Properties

  lemma DigitsHaveNoSeparator(s: string)
    requires Numerals.AllDigits(s)
    ensures '/' !in s && '.' !in s
  {
  }

  /** The timestamp has neither '/' nor '.' and starts with a digit. */
  lemma StampIsPlain(t: DateTime)
    requires Valid(t)
    ensures '/' !in StampPy(t) && '.' !in StampPy(t)
    ensures Numerals.IsDigit(StampPy(t)[0])
  {
    StampPyShape(t);
    DigitsHaveNoSeparator(Pad4(t.year));
    DigitsHaveNoSeparator(Pad2(t.month));
    DigitsHaveNoSeparator(Pad2(t.day));
    DigitsHaveNoSeparator(Pad2(t.hour));
    DigitsHaveNoSeparator(Pad2(t.minute));
    DigitsHaveNoSeparator(Pad2(t.second));
    assert StampPy(t)[0] == Pad4(t.year)[0];
  }

  /** The file name takes apart again: the first nineteen characters are
      the timestamp, which parses back to the start time to the second,
      then '_', the sanitised channel name, '.' and the format. */
  lemma FilenameTakesApart(now: DateTime, channelName: string, format: string)
    requires Valid(now)
    ensures var f := Filename(now, channelName, format);
            var n := |SanitizeChannelName(channelName)|;
            && |f| == 19 + 1 + n + 1 + |format|
            && ParseStampPy(f[..19]) == Some(ToSeconds(now))
            && f[19] == '_'
            && f[20..20 + n] == SanitizeChannelName(channelName)
            && f[20 + n] == '.'
            && f[20 + n + 1..] == format
  {
    StampPyRoundTrip(now);
    var f := Filename(now, channelName, format);
    assert f[..19] == StampPy(now);
  }

  /** Two recordings get the same name only if they start in the same
      second and their channel names sanitise alike. */
  lemma FilenameInjective(t: DateTime, u: DateTime, a: string, b: string, format: string)
    requires Valid(t) && Valid(u)
    requires Filename(t, a, format) == Filename(u, b, format)
    ensures ToSeconds(t) == ToSeconds(u)
    ensures SanitizeChannelName(a) == SanitizeChannelName(b)
  {
    FilenameTakesApart(t, a, format);
    FilenameTakesApart(u, b, format);
  }

  /** The file name's extension is the configured format (when the format
      itself holds no '.' or '/'), so Drive is told the type of that
      format. */
  lemma FilenameMimeType(now: DateTime, channelName: string, format: string)
    requires Valid(now)
    requires '.' !in format && '/' !in format
    ensures ExtPy(Filename(now, channelName, format)) == "." + format
    ensures MimeTypePy(Filename(now, channelName, format)) == MimeForExt("." + LowerAscii(format))
  {
    StampIsPlain(now);
    var stem := StampPy(now) + "_" + SanitizeChannelName(channelName);
    assert stem[0] == StampPy(now)[0];
    assert '/' !in stem;
    ExtOfSuffix(stem, format);
    LowerKeepsDot(format);
  }

  lemma LowerKeepsDot(s: string)
    ensures LowerAscii("." + s) == "." + LowerAscii(s)
  {
    assert forall i :: 0 <= i < |s| ==> ("." + s)[i + 1] == s[i];
  }

  /** For the three formats the sink knows, the audio it records and the
      type the upload declares agree. */
  lemma SinkMatchesUploadType(now: DateTime, channelName: string, format: string)
    requires Valid(now)
    requires LowerAscii(format) in {"mp3", "wav", "ogg"}
    ensures MimeTypePy(Filename(now, channelName, format)) == SinkMime(GetSinkClass(format))
  {
    FilenameMimeType(now, channelName, format);
    KnownFormatMime(LowerAscii(format));
  }

  lemma KnownFormatMime(l: string)
    requires l in {"mp3", "wav", "ogg"}
    ensures MimeForExt("." + l) == if l == "mp3" then "audio/mpeg" else if l == "wav" then "audio/wav" else "audio/ogg"
  {
    assert "." + l == if l == "mp3" then ".mp3" else if l == "wav" then ".wav" else ".ogg";
  }

  /** For "flac" the sink falls back to MP3 while the file is uploaded as
      FLAC. */
  lemma FlacRecordsMp3(now: DateTime, channelName: string)
    requires Valid(now)
    ensures GetSinkClass("flac") == MP3Sink
    ensures MimeTypePy(Filename(now, channelName, "flac")) == "audio/flac"
  {
    FilenameMimeType(now, channelName, "flac");
    assert LowerAscii("flac") == "flac";
  }

  /** Joining a directory and a plain file name leaves a directory part
      exactly when the directory is not empty. */
  lemma DirNameOfJoin(dir: string, f: string)
    requires f != "" && f[0] != '/' && '/' !in f
    ensures DirName(PathJoin(dir, f)) == "" <==> dir == ""
  {
    var p := PathJoin(dir, f);
    if dir != "" {
      var k := if dir[|dir| - 1] == '/' then |dir| - 1 else |dir|;
      assert p[k] == '/';
      var i := LastIndexOf(p, '/');
      assert i >= k;
      var head := p[..i + 1];
      if exists j :: 0 <= j < |head| && head[j] != '/' {
        var j :| 0 <= j < |head| && head[j] != '/';
        var q := StripTrailingSlashes(head);
        StripShape(head);
        assert j < |q|;
      }
    }
  }

  /** With an empty `localStoragePath` the recording is saved under a bare
      file name, `os.makedirs('')` raises, and no recording is ever
      uploaded. */
  lemma EmptyStoragePathNeverUploads(config: Config, now: DateTime, startMicros: int, channelName: string,
                                     nowMicros: int, wall: DateTime, env: StopEnvPy)
    requires Valid(now) && Valid(wall)
    requires config.localStoragePath == "" && '/' !in config.recordingFormat
    ensures var s := StartRecording(config, now, startMicros, channelName, true);
            StopRecording(s.value, channelName, config, nowMicros, wall, env).result.None?
  {
    var f := Filename(now, channelName, config.recordingFormat);
    StampIsPlain(now);
    assert f[0] == StampPy(now)[0];
    assert '/' !in f;
    DirNameOfJoin("", f);
  }
}
