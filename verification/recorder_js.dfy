/** recorder.js: the recording's file name and path, the FFmpeg command
    line, the per-user stream table `userAudioStreams`, and the steps
    `stopRecording` takes before it hands the file to drive.js. */
module RecorderJs {
  import opened Wrappers
  import opened Numerals
  import opened Strings
  import opened Charsets
  import opened Timestamps
  import opened Config
  import opened Media
  import opened Drive
  import opened Recording
  import DriveJs
  import DrivePy
  import RecorderPy

  // ---------------------------------------------------------------------
  // File name and path

  /** `channel.name.replace(/[^\w-]/g, '_')`: the pattern has no `u` flag,
      so it reads UTF-16 code units. ASCII letters and digits, '_' and '-'
      are kept, every other code unit becomes '_', and a character outside
      the Basic Multilingual Plane becomes two. */
  function SanitizeChannelName(name: string): (r: string)
    ensures |r| == Utf16Length(name)
    ensures forall i :: 0 <= i < |r| ==> IsWordJs(r[i]) || r[i] == '-'
    ensures (forall i :: 0 <= i < |name| ==> !IsAstral(name[i])) ==>
              && |r| == |name|
              && (forall i :: 0 <= i < |r| && (IsWordJs(name[i]) || name[i] == '-') ==> r[i] == name[i])
              && (forall i :: 0 <= i < |r| && !(IsWordJs(name[i]) || name[i] == '-') ==> r[i] == '_')
  {
    ReplaceNonWordUnitsOnBmp(name);
    ReplaceNonWordUnits(name)
  }

  /** Sanitising a sanitised name changes nothing. */
  lemma SanitizeChannelNameIdempotent(name: string)
    ensures SanitizeChannelName(SanitizeChannelName(name)) == SanitizeChannelName(name)
  {
    ReplaceNonWordUnitsIdempotent(name);
  }

  /** Python's `isalnum` keeps kana and kanji; JavaScript's ASCII `\w` does
      not. */
  lemma SanitisersDivergeOnKanji()
    ensures RecorderPy.SanitizeChannelName("日本語") == "日本語"
    ensures SanitizeChannelName("日本語") == "___"
  {
    assert IsAlnumPy('日') && IsAlnumPy('本') && IsAlnumPy('語');
    KeptStringUnchanged("日本語", ChannelNamePy);
  }

  /** A character outside the Basic Multilingual Plane that is not
      alphanumeric becomes one '_' in Python and two in JavaScript. */
  lemma SanitisersDivergeOnEmoji()
    ensures RecorderPy.SanitizeChannelName("🎤") == "_"
    ensures SanitizeChannelName("🎤") == "__"
  {
  }

  /** `` `${timestamp}_${sanitizedChannelName}.${config.recordingFormat}` ``
      with the ISO timestamp whose ':' and '.' became '-'. */
  function Filename(now: DateTime, channelName: string, format: string): (f: string)
    requires Valid(now)
    ensures |f| == 26 + Utf16Length(channelName) + |format|
    ensures f[..24] == StampJs(now)
    ensures ':' !in f[..24] && '.' !in f[..24]
  {
    StampJs(now) + "_" + SanitizeChannelName(channelName) + "." + format
  }

  /** The timestamp has no '/' and starts with a digit. */
  lemma StampJsIsPlain(t: DateTime)
    requires Valid(t)
    ensures '/' !in StampJs(t)
    ensures IsDigit(StampJs(t)[0])
  {
    StampJsExtendsStampPy(t);
    RecorderPy.StampIsPlain(t);
    RecorderPy.DigitsHaveNoSeparator(Pad3(t.millis));
    assert StampJs(t)[0] == StampPy(t)[0];
  }

  /** recorder.py stamps its name with the host's local time
      (`datetime.now()`), recorder.js with UTC (`toISOString()`). The two
      names agree on their first nineteen characters exactly when those two
      readings agree to the second; then JavaScript goes on with the
      milliseconds where Python has the '_' before the channel name. */
  lemma FilenamesShareStamp(local: DateTime, utc: DateTime, channelName: string, format: string)
    requires Valid(local) && Valid(utc)
    ensures (Filename(utc, channelName, format)[..19] == RecorderPy.Filename(local, channelName, format)[..19])
              <==> ToSeconds(utc) == ToSeconds(local)
    ensures Filename(utc, channelName, format)[19] == '-'
    ensures RecorderPy.Filename(local, channelName, format)[19] == '_'
  {
    FilenameOpensWithStampPy(utc, channelName, format);
    StampPyInjectiveToTheSecond(utc, local);
    var g := RecorderPy.Filename(local, channelName, format);
    assert g[19] == (StampPy(local) + "_")[19];
  }

  /** The JavaScript name opens with the Python stamp of the same reading
      and a '-'. */
  lemma FilenameOpensWithStampPy(t: DateTime, channelName: string, format: string)
    requires Valid(t)
    ensures Filename(t, channelName, format)[..19] == StampPy(t)
    ensures Filename(t, channelName, format)[19] == '-'
  {
    StampJsExtendsStampPy(t);
    var f := Filename(t, channelName, format);
    assert f[..24] == StampPy(t) + "-" + Pad3(t.millis) + "Z";
    assert f[..19] == f[..24][..19];
  }

  /** The file name's extension is the configured format (when it holds no
      '.' or '/'), and the upload is typed by it. */
  lemma FilenameMimeType(now: DateTime, channelName: string, format: string)
    requires Valid(now)
    requires '.' !in format && '/' !in format
    ensures ExtJs(Filename(now, channelName, format)) == "." + format
    ensures MimeTypeJs(Filename(now, channelName, format)) == MimeForExt("." + LowerAscii(format))
  {
    StampJsIsPlain(now);
    var stem := StampJs(now) + "_" + SanitizeChannelName(channelName);
    assert stem[0] == StampJs(now)[0];
    assert '/' !in stem;
    ExtOfSuffix(stem, format);
    RecorderPy.LowerKeepsDot(format);
  }

  // ---------------------------------------------------------------------
  // The FFmpeg command line

  /** `` `${config.recordingBitrate}k` ``: an absent key prints as
      `undefined`. */
  function BitrateArg(config: Config): (a: string)
    ensures |a| > 0 && a[|a| - 1] == 'k'
    ensures config.recordingBitrate.None? ==> a == "undefinedk"
  {
    match config.recordingBitrate
    case None => "undefinedk"
    case Some(b) => IntToString(b) + "k"
  }

  const Encoder: string := "libmp3lame"

  /** The argument list recorder.js hands to FFmpeg: the input options
      `-f s16le`, `-ar 48000` and `-ac 2`, the `libmp3lame` encoder, the
      configured bitrate, and the recording's path last. */
  function FfmpegArgs(config: Config, outputPath: string): (args: seq<string>)
    ensures |args| == 11
    ensures args[0..2] == ["-f", "s16le"] && args[2..4] == ["-ar", "48000"] && args[4..6] == ["-ac", "2"]
    ensures args[6..8] == ["-c:a", Encoder]
    ensures args[8] == "-b:a" && args[9] == BitrateArg(config)
    ensures args[10] == outputPath
  {
    ["-f", "s16le", "-ar", "48000", "-ac", "2", "-c:a", Encoder, "-b:a", BitrateArg(config), outputPath]
  }

  /** A configured bitrate reads back from the argument, in the kilobits
      per second that recorder.py multiplies by 1000 for its sink. */
  lemma BitrateArgReadsBack(config: Config)
    requires config.recordingBitrate.Some? && config.recordingBitrate.value >= 0
    ensures ReadNumber(BitrateArg(config)) == Some(Read(config.recordingBitrate.value, "k"))
    ensures RecorderPy.BitrateFilter(config) == 1000 * ReadNumber(BitrateArg(config)).value.value
  {
    ReadNumberRoundTrip(config.recordingBitrate.value, "k");
  }

  /** Without `recordingBitrate` recorder.py records at 128 kbit/s while
      recorder.js passes FFmpeg a bitrate that is not a number. */
  lemma MissingBitrateDiverges(config: Config)
    requires config.recordingBitrate.None?
    ensures RecorderPy.BitrateFilter(config) == 128000
    ensures ReadNumber(BitrateArg(config)).None?
  {
    assert BitrateArg(config)[0] == 'u';
  }

  // ---------------------------------------------------------------------
  // The per-user stream table

  type UserId = nat

  /** The state behind `userAudioStreams`. Streams are numbered in the
      order they were subscribed: `owner[s]` is the user stream `s` was
      subscribed for, `ended` the streams whose 'end' event has fired, and
      `live` the Map itself, from user to stream. */
  datatype Streams = Streams(live: map<UserId, nat>, owner: seq<UserId>, ended: set<nat>)

  const NoStreams: Streams := Streams(map[], [], {})

  /** The two events the table reacts to: a user starts speaking, or a
      subscribed stream ends after its 500 ms of silence. */
  datatype StreamEvent = SpeakingStart(user: UserId) | StreamEnd(stream: nat)

  /** Stream `s` has been subscribed and has not ended. */
  predicate IsOpen(st: Streams, s: int) {
    0 <= s < |st.owner| && s !in st.ended
  }

  /** The table lists exactly the open streams, under the users they were
      subscribed for. */
  ghost predicate Inv(st: Streams) {
    && (forall s :: s in st.ended ==> s < |st.owner|)
    && (forall u :: u in st.live ==> IsOpen(st, st.live[u]) && st.owner[st.live[u]] == u)
    && (forall s :: IsOpen(st, s) ==> st.owner[s] in st.live && st.live[st.owner[s]] == s)
  }

  /** The 'start' handler subscribes a new stream unless the user already
      has one; the 'end' handler of stream `s` deletes its user's entry. An
      'end' for a stream that is not open is never emitted and is ignored. */
  function OnEvent(st: Streams, e: StreamEvent): (r: Streams)
    ensures e.SpeakingStart? && e.user in st.live ==> r == st
    ensures e.SpeakingStart? && e.user !in st.live ==>
              r.owner == st.owner + [e.user] && r.live.Keys == st.live.Keys + {e.user} && r.ended == st.ended
    ensures e.StreamEnd? && IsOpen(st, e.stream) ==>
              r.owner == st.owner && r.live.Keys == st.live.Keys - {st.owner[e.stream]} &&
              r.ended == st.ended + {e.stream}
    ensures e.StreamEnd? && !IsOpen(st, e.stream) ==> r == st
  {
    match e
    case SpeakingStart(u) =>
      if u in st.live then st
      else Streams(st.live[u := |st.owner|], st.owner + [u], st.ended)
    case StreamEnd(s) =>
      if IsOpen(st, s) then Streams(st.live - {st.owner[s]}, st.owner, st.ended + {s})
      else st
  }

  lemma OnEventKeepsInv(st: Streams, e: StreamEvent)
    requires Inv(st)
    ensures Inv(OnEvent(st, e))
  {
    var r := OnEvent(st, e);
    match e
    case SpeakingStart(u) =>
      if u !in st.live {
        forall v | v in r.live
          ensures IsOpen(r, r.live[v]) && r.owner[r.live[v]] == v
        {
          if v != u {
            assert IsOpen(st, st.live[v]);
          }
        }
        forall s | IsOpen(r, s)
          ensures r.owner[s] in r.live && r.live[r.owner[s]] == s
        {
          if s < |st.owner| {
            assert IsOpen(st, s);
          }
        }
      }
    case StreamEnd(s) =>
      if IsOpen(st, s) {
        var gone := st.owner[s];
        forall t | IsOpen(r, t)
          ensures r.owner[t] in r.live && r.live[r.owner[t]] == t
        {
          assert IsOpen(st, t);
          assert st.live[st.owner[t]] == t;
        }
      }
  }

  /** The table after a sequence of events. */
  function Run(st: Streams, es: seq<StreamEvent>): Streams
    decreases |es|
  {
    if |es| == 0 then st else Run(OnEvent(st, es[0]), es[1..])
  }

  /** The table keeps its shape whatever the events. */
  lemma {:induction false} RunKeepsInv(st: Streams, es: seq<StreamEvent>)
    requires Inv(st)
    ensures Inv(Run(st, es))
    decreases |es|
  {
    if |es| > 0 {
      OnEventKeepsInv(st, es[0]);
      RunKeepsInv(OnEvent(st, es[0]), es[1..]);
    }
  }

  /** A user never has two open streams. */
  lemma OneOpenStreamPerUser(st: Streams, s: nat, t: nat)
    requires Inv(st)
    requires IsOpen(st, s) && IsOpen(st, t) && st.owner[s] == st.owner[t]
    ensures s == t
  {
  }

  /** The streams the table lists. */
  function LiveStreams(st: Streams): (ss: set<nat>)
    ensures forall u :: u in st.live ==> st.live[u] in ss
    ensures forall s :: s in ss ==> exists u :: u in st.live && st.live[u] == s
  {
    set u | u in st.live :: st.live[u]
  }

  /** Under the invariant the listed streams are exactly the open ones:
      stopping through the table reaches every stream still feeding
      FFmpeg. */
  lemma LiveStreamsAreOpen(st: Streams)
    requires Inv(st)
    ensures forall s :: s in LiveStreams(st) <==> IsOpen(st, s)
  {
    forall s | IsOpen(st, s)
      ensures s in LiveStreams(st)
    {
      assert st.live[st.owner[s]] == s;
    }
  }

  // ---------------------------------------------------------------------
  // Starting

  /** What `startRecording` keeps about a started recording. */
  datatype SessionJs = SessionJs(
    outputPath: string,
    filename: string,
    ffmpegArgs: seq<string>,
    streams: Streams,
    startMs: int)

  /** `startRecording(connection, channel, logger)`: `now` is the clock
      reading used for the name, `startMs` the one stored as the start
      time, `startOk` whether the encoder process and the file stream could
      be created (otherwise the error is rethrown: None). */
  function StartRecording(config: Config, now: DateTime, startMs: int, channelName: string, startOk: bool): (s: Option<SessionJs>)
    requires Valid(now)
    ensures s.Some? <==> startOk
    ensures s.Some? ==> s.value.filename == Filename(now, channelName, config.recordingFormat)
    ensures s.Some? ==> s.value.outputPath == RecorderPy.PathJoin(config.localStoragePath, s.value.filename)
    ensures s.Some? ==> s.value.ffmpegArgs == FfmpegArgs(config, s.value.outputPath)
    ensures s.Some? ==> s.value.streams == NoStreams && Inv(s.value.streams)
    ensures s.Some? ==> s.value.startMs == startMs
  {
    var filename := Filename(now, channelName, config.recordingFormat);
    var outputPath := RecorderPy.PathJoin(config.localStoragePath, filename);
    if startOk then Some(SessionJs(outputPath, filename, FfmpegArgs(config, outputPath), NoStreams, startMs))
    else None
  }

  /** The session after the speaking events that reached it. */
  function Heard(session: SessionJs, es: seq<StreamEvent>): (s: SessionJs)
    ensures s.streams == Run(session.streams, es)
    ensures s.outputPath == session.outputPath && s.filename == session.filename && s.startMs == session.startMs
  {
    session.(streams := Run(session.streams, es))
  }

  // ---------------------------------------------------------------------
  // Stopping

  /** The upload's environment and whether `unlinkSync` succeeds. */
  datatype StopEnvJs = StopEnvJs(drive: DriveJs.EnvJs, unlinkOk: bool)

  /** What one `stopRecording` call does and returns: the streams it
      destroys, whether it ends the encoder and the file stream, the upload
      it runs, and whether it deletes the file. */
  datatype StopReportJs = StopReportJs(
    result: Option<Outcome>,
    destroyed: set<nat>,
    encoderEnded: bool,
    upload: Option<DriveJs.UploadJs>,
    deleted: bool)

  const MinimumMillis: int := 3000

  /** `stopRecording(recordingSession, channel, logger)`. `nowMs` is the
      clock reading for the duration, `when` the locale text the upload
      description shows. The duration in seconds, `ms / 1000`, is below 3
      exactly when the milliseconds are below 3000. */
  function StopRecording(session: SessionJs, channelName: string, config: Config, nowMs: int, when: string, env: StopEnvJs): (r: StopReportJs)
    ensures nowMs - session.startMs < MinimumMillis ==> r == StopReportJs(None, {}, false, None, false)
    ensures r.result.Some? <==> nowMs - session.startMs >= MinimumMillis
    ensures r.encoderEnded <==> r.result.Some?
    ensures r.result.Some? ==> r.destroyed == LiveStreams(session.streams)
    ensures r.upload.Some? <==> r.result.Some?
    ensures r.upload.Some? ==>
              r.upload.value == DriveJs.UploadToDrive(session.filename, channelName, config, when, env.drive)
    ensures r.result.Some? ==>
              r.result.value.filename == session.filename &&
              r.result.value.duration == nowMs - session.startMs
    ensures r.result.Some? ==>
              (r.result.value.Uploaded? <==>
                 r.upload.value.result.Success? && (!AutoDeleteJs(config) || env.unlinkOk))
    ensures r.result.Some? && r.result.value.Uploaded? ==>
              r.result.value.driveLink == r.upload.value.result.value.webViewLink &&
              r.result.value.driveId == r.upload.value.result.value.id
    ensures r.result.Some? && r.result.value.UploadFailed? ==> r.result.value.localPath == session.outputPath
    ensures r.result.Some? && r.upload.value.result.Failure? ==>
              r.result.value == UploadFailed(session.filename, nowMs - session.startMs, session.outputPath,
                                             DriveError(r.upload.value.result.error))
    ensures r.deleted <==> r.result.Some? && r.result.value.Uploaded? && AutoDeleteJs(config)
  {
    var duration := nowMs - session.startMs;
    if duration < MinimumMillis then StopReportJs(None, {}, false, None, false)
    else
      var destroyed := LiveStreams(session.streams);
      var up := DriveJs.UploadToDrive(session.filename, channelName, config, when, env.drive);
      match up.result
      case Failure(e) =>
        StopReportJs(Some(UploadFailed(session.filename, duration, session.outputPath, DriveError(e))),
                     destroyed, true, Some(up), false)
      case Success(file) =>
        if AutoDeleteJs(config) && !env.unlinkOk then
          StopReportJs(Some(UploadFailed(session.filename, duration, session.outputPath, DeleteFailed)),
                       destroyed, true, Some(up), false)
        else
          StopReportJs(Some(Uploaded(session.filename, duration, file.webViewLink, file.id)),
                       destroyed, true, Some(up), AutoDeleteJs(config))
  }

  // ---------------------------------------------------------------------
  // Properties

  /** A recording started by `startRecording`, whatever the speaking events
      in between, is stopped by destroying exactly the streams still open. */
  lemma StopDestroysOpenStreams(config: Config, now: DateTime, startMs: int, channelName: string,
                                es: seq<StreamEvent>, nowMs: int, when: string, env: StopEnvJs)
    requires Valid(now)
    requires nowMs - startMs >= MinimumMillis
    ensures var s := Heard(StartRecording(config, now, startMs, channelName, true).value, es);
            forall t :: t in StopRecording(s, channelName, config, nowMs, when, env).destroyed <==> IsOpen(s.streams, t)
  {
    var s0 := StartRecording(config, now, startMs, channelName, true).value;
    RunKeepsInv(s0.streams, es);
    LiveStreamsAreOpen(Run(s0.streams, es));
  }

  /** recorder.js has no empty-audio check: a recording during which nobody
      spoke is still uploaded, where recorder.py, finding no audio, returns
      None before writing anything. */
  lemma SilenceDiverges(js: SessionJs, channelName: string, config: Config, nowMs: int, when: string, envJs: StopEnvJs,
                        py: RecorderPy.SessionPy, nowMicros: int, wall: DateTime, envPy: RecorderPy.StopEnvPy)
    requires Valid(wall)
    requires js.streams == NoStreams && nowMs - js.startMs >= MinimumMillis
    requires envPy.audio == []
    ensures StopRecording(js, channelName, config, nowMs, when, envJs).result.Some?
    ensures StopRecording(js, channelName, config, nowMs, when, envJs).upload.Some?
    ensures RecorderPy.StopRecording(py, channelName, config, nowMicros, wall, envPy).result.None?
    ensures RecorderPy.StopRecording(py, channelName, config, nowMicros, wall, envPy).upload.None?
  {
  }

  /** Without `autoDeleteLocalFiles` in the configuration, a successful
      upload deletes the local file in Python and keeps it in JavaScript. */
  lemma AbsentAutoDeleteDiverges(js: SessionJs, channelName: string, config: Config, nowMs: int, when: string, envJs: StopEnvJs,
                                 py: RecorderPy.SessionPy, nowMicros: int, wall: DateTime, envPy: RecorderPy.StopEnvPy)
    requires Valid(wall)
    requires config.autoDeleteLocalFiles.None?
    requires nowMs - js.startMs >= MinimumMillis
    requires DriveJs.UploadToDrive(js.filename, channelName, config, when, envJs.drive).result.Success?
    requires RecorderPy.WritesFile(py, nowMicros, envPy) && envPy.unlinkOk
    requires DrivePy.UploadToDrive(py.filename, channelName, config, wall, envPy.drive).result.Success?
    ensures RecorderPy.StopRecording(py, channelName, config, nowMicros, wall, envPy).deleted
    ensures !StopRecording(js, channelName, config, nowMs, when, envJs).deleted
    ensures StopRecording(js, channelName, config, nowMs, when, envJs).result.value.Uploaded?
  {
    AutoDeleteDiverges(config);
  }

  /** Whatever the configured format, recorder.js encodes MP3: a "wav"
      recording is MP3 data in a file named and uploaded as WAV, where
      recorder.py records it with its WAV sink. */
  lemma WavFileHoldsMp3(config: Config, now: DateTime, startMs: int, channelName: string)
    requires Valid(now)
    requires config.recordingFormat == "wav"
    ensures var s := StartRecording(config, now, startMs, channelName, true).value;
            && s.ffmpegArgs[7] == "libmp3lame"
            && MimeTypeJs(s.filename) == "audio/wav"
            && RecorderPy.GetSinkClass(config.recordingFormat) == RecorderPy.WaveSink
  {
    var s := StartRecording(config, now, startMs, channelName, true).value;
    assert s.filename == Filename(now, channelName, "wav");
    assert s.ffmpegArgs[6..8] == ["-c:a", Encoder];
    WavMime(now, channelName);
    WavSink();
  }

  lemma WavSink()
    ensures RecorderPy.GetSinkClass("wav") == RecorderPy.WaveSink
  {
    assert LowerAscii("wav") == "wav";
  }

  lemma WavMime(now: DateTime, channelName: string)
    requires Valid(now)
    ensures MimeTypeJs(Filename(now, channelName, "wav")) == "audio/wav"
  {
    FilenameMimeType(now, channelName, "wav");
    assert LowerAscii("wav") == "wav";
    assert "." + "wav" == ".wav";
  }
}
