# Voice-channel recorder, modelled in Dafny

A Discord bot joins a voice channel as soon as two people who are not bots
are in it. It posts a start message to a related text channel and records
the channel. When the last person who is not a bot leaves, it stops the
recording, uploads the file to Google Drive and posts the share link. The
repository contains two implementations of the same bot: a Python one
(`python/src/*.py`, on py-cord) and a JavaScript one (`src/*.js`, on
discord.js with ffmpeg). This project models both implementations side by
side:

- the voice-state handler and its registry of active recordings
  (`active_recordings` / `activeRecordings`);
- how the related text channel is chosen;
- starting and stopping a recording, including the file name, the sink or
  ffmpeg set-up, JavaScript's per-user stream table, the minimum duration
  and the outcome record;
- credential classification, the upload request and the MIME table of the
  Drive code;
- the helpers `sanitize_filename` / `sanitizeFilename`, `format_duration` /
  `formatDuration` and `get_config`.

Where the two implementations behave differently, each is modelled as
written, and a lemma names an input on which they disagree.

Modules:

| file | module | what it holds |
|---|---|---|
| wrappers.dfy | Wrappers | `Option`, `Result` |
| numerals.dfy | Numerals | decimal rendering and reading of naturals |
| strings.dfy | Strings | search, split/join, first and all-occurrence replacement, ASCII lowering |
| charsets.dfy | Charsets | the character classes behind `isalnum`, `\w` and `\s` |
| json.dfy | JsonValues | JSON values and Python/JavaScript truthiness |
| timestamps.dfy | Timestamps | `strftime` and `toISOString` stamps, and a parser for the former |
| channels.dfy | Channels | voice and text channels, non-bot counts, text-channel resolution |
| media.dfy | Media | `os.path.splitext`, `path.extname`, the MIME table |
| config.dfy | Config | the `config.json` record and its truthiness-sensitive keys |
| drive.dfy, drive_py.dfy, drive_js.dfy | Drive, DrivePy, DriveJs | authorisation and upload |
| recording.dfy | Recording | the outcome a stop returns and its share link |
| recorder_py.dfy, recorder_js.dfy | RecorderPy, RecorderJs | starting and stopping a recording |
| utils_py.dfy, utils_js.dfy | UtilsPy, UtilsJs | the helpers |
| bot.dfy, bot_py.dfy, bot_js.dfy | Bot, BotPy, BotJs | the voice-state handlers and runs of them |

Everything that the code awaits or reads from outside is a parameter of the
model. This covers:

- Discord calls: `send`, `connect` / `joinVoiceChannel`, `disconnect` /
  `destroy`;
- the recorder's own calls;
- the clock;
- the file system;
- the Google API.

Each of these inputs says whether the call succeeds and what it returns,
at the grain listed under "Left out".
An exception that reaches a handler's `try` ends that invocation. The
handler invocations of a run happen one after another.

A channel named `日本語` keeps its name in Python file names:
`c.isalnum()` in python/src/recorder.py:46 is true for kana and kanji.
The ASCII `[^\w-]` of src/recorder.js:21 turns the same name into `___`
(`RecorderJs.SanitisersDivergeOnKanji`). That pattern has no `u` flag, so
it reads UTF-16 code units: `🎤` becomes `__` in JavaScript and `_` in
Python (`RecorderJs.SanitisersDivergeOnEmoji`).

## Model

| member | source | states |
|---|---|---|
| BotPy.JoinPy | python/src/bot.py:43-76 | a channel is registered by the join check exactly when it has two or more non-bot members, no entry, a related text channel that accepts the start message, a successful connect and a successful start. The new entry holds that text channel and the started session. The actions are then start message, connect, recording start, in that order. Other entries are untouched. A raise leaves the registry as it was. |
| Bot.StartIn | python/src/bot.py:55-74 | once the text channel is found (src/bot.js:42-62 alike): the channel gains an entry, with that text channel and the started session, exactly when the start message, the connect and the recording start all succeed, and the actions are then those three in order. A failure raises with the registry unchanged. |
| BotPy.AfterStopPy | python/src/bot.py:99-118 | after the stop call, the entry is removed exactly when the disconnect succeeds. The stop comes first and the disconnect second. The handler raises exactly when the disconnect fails, or when a link is to be posted and the end or the share `send` fails. |
| BotPy.AfterStopMessagesPy | python/src/bot.py:108-118 | the end message reaches the entry's text channel exactly when the disconnect succeeded, the outcome has a non-empty Drive link and that send succeeds. The share message follows exactly when its own send succeeds too; its text is the template with every `{link}` replaced. When only the share send fails, the end message stays posted and the handler raises. |
| Bot.PostEnd | python/src/bot.py:115-118 | the end message is posted exactly when its send succeeds, the share message exactly when both sends succeed, and the handler raises exactly when one of them fails |
| BotPy.LeavePy | python/src/bot.py:79-118 | the leave check acts only when nobody but bots is left and the channel has an entry. The channel leaves the registry exactly when it had no entry, or was empty and the disconnect succeeded. The first action is the stop with `stop_recording`'s result. |
| BotPy.UpdatePy | python/src/bot.py:24-121 | an update inside one channel, or by a bot, changes nothing. Only the channel left can lose its entry and only the channel joined can gain one. Surviving entries keep their values. |
| BotPy.UpdateRegistersPy | python/src/bot.py:33-76 | an update gives its new channel an entry exactly when the member is not a bot, the channel changed, the join condition holds, and the start message, the connect and the recording start all succeed |
| BotPy.UpdateUnregistersPy | python/src/bot.py:33-118 | an update removes the entry of its registered old channel exactly when the member is not a bot, the channel changed, the join check on the new channel did not raise, no non-bot member is left and the disconnect succeeds |
| BotPy.JoinThenLeave | python/src/bot.py:43-121 | a move runs the join check on the new channel, then the leave check on the old one against the registry the join left. A raising join skips the leave check. |
| BotPy.JoinNeverReplaces | python/src/bot.py:49 | a channel with an entry is never recorded twice: the join check does nothing |
| BotPy.FailedDisconnectKeepsEntry | python/src/bot.py:99-105 | a failed `disconnect()` raises after the stop and before the `del`: the entry stays and the only action is the stop |
| BotPy.JoinCoversPy | python/src/bot.py:62-74 | a join opens a voice connection for every channel it registers and closes none |
| BotPy.LeaveCoversPy | python/src/bot.py:99-105 | a leave closes a connection only for the channel it unregisters, before unregistering it |
| BotPy.UpdateCoversPy | python/src/bot.py:24-121 | one handler invocation keeps a connection open for every channel it leaves registered |
| BotPy.RegisteredAreConnected | python/src/bot.py:24-121 | after any sequence of handler invocations from an empty registry, every registered channel has a connection that was opened and not closed |
| BotJs.IdOf | src/bot.js:24 | a voice state has no channel id exactly when it has no channel |
| BotJs.JoinJs | src/bot.js:30-67 | the same registration condition, entry, action order and raise behaviour as bot.py's join check, with the connection counted against the joined channel |
| BotJs.AfterStopJs | src/bot.js:86-100 | the connection is destroyed before the delete; a throw keeps the entry; the handler throws exactly when the destroy fails, or when a link is to be posted and the end or the share `send` rejects |
| BotJs.AfterStopMessagesJs | src/bot.js:95-100 | the end and share messages are posted under the same conditions as in Python, each on its own send, and a rejected share send leaves the end message posted. The share text has only the first `{link}` replaced. |
| BotJs.LeaveJs | src/bot.js:70-103 | the leave check acts exactly when the channel is empty of non-bots and has an entry, and removes the entry exactly when the destroy succeeds |
| BotJs.UpdateJs | src/bot.js:21-108 | equal channel ids or a bot member change nothing. Only a cached old channel can lose an entry and only a cached new channel can gain one. |
| BotJs.JoinPart | src/bot.js:29-67 | the join half of an invocation: a cached new channel runs the join check, an uncached one throws at the member count, no new channel does nothing. Only the new channel can gain an entry, old entries stay, and a throw changes nothing. |
| BotJs.UpdateRegistersJs | src/bot.js:21-67 | an update gives its cached new channel an entry exactly when no bot is involved, the channel id changed, the join condition holds and the start message, the connection and the recording start all succeed |
| BotJs.UpdateUnregistersJs | src/bot.js:21-103 | an update removes the entry of its cached, registered old channel exactly when no bot is involved, the channel id changed, the join half did not throw, no non-bot member is left and the destroy succeeds |
| BotJs.JoinThenLeave | src/bot.js:30-103 | a move between cached channels runs the join check, then the leave check on the registry the join left |
| BotJs.UncachedNewChannelThrows | src/bot.js:36 | a new channel id whose channel object is null throws at the member count: nothing happens, and the leave check is skipped |
| BotJs.UncachedOldChannelKeepsEntry | src/bot.js:70-80 | an old channel whose object is null keeps its entry |
| BotJs.JoinNeverReplaces | src/bot.js:36 | a channel with an entry is never recorded twice |
| BotJs.JoinsAgree | src/bot.js:30-67 | for the same channel and the same failures, the two join checks register the same channels, perform the same actions and raise alike |
| BotJs.AfterStopsAgree | src/bot.js:86-100 | for the same stop result, the two leave paths unregister alike and post the same messages, and raise alike, when the sends succeed alike, the template holds `{link}` at most once and the link holds no `$` |
| BotJs.UpdateCoversJs | src/bot.js:21-108 | one handler invocation keeps a connection open for every channel it leaves registered, counting connections per channel |
| BotJs.RegisteredAreConnected | src/bot.js:21-108 | after any sequence of invocations from an empty registry, every registered channel has an open connection, counting connections per channel |
| BotJs.DestroyClosesSharedConnection | src/bot.js:47-93 | with a second channel of the same guild registered, a successful leave check closes the guild's one connection while that channel stays registered, and leaves that channel's per-channel count unchanged |
| Bot.ShareTextPy | python/src/bot.py:117 | `str.replace` cuts the template at every `{link}` and joins the pieces with the link; a template without `{link}` is unchanged, and the length changes by one link-length difference per occurrence |
| Bot.ShareTextJs | src/bot.js:99 | `String.prototype.replace` with a string pattern rewrites exactly the first `{link}`, expanding `$$`, `$&`, `` $` `` and `$'` in the link, and leaves the rest of the template; for a link without `$` it is the plain first-occurrence replacement |
| Bot.ShareTextsAgree | src/bot.js:99 | with `{link}` at most once in the template and no `$` in the link, the two share texts are equal |
| Bot.ShareTextsDiverge | src/bot.js:99 | with `{link}` twice or more, the JavaScript text still shows a literal `{link}`; for a link without `$` that is not six characters long the two texts differ |
| Bot.DollarLinkDiverges | src/bot.js:99 | for the template `{link}` and the link `$&`, JavaScript puts `{link}` back while Python inserts `$&` |
| Bot.RunCovered | python/src/bot.py:24-121 | if every invocation opens a connection for what it registers and closes one only for what it unregisters, the invariant "every registered channel has an open connection" holds along the whole run |
| Bot.CoveredAfter | python/src/bot.py:65-74 | one step that covers its registry changes keeps the invariant |
| Bot.StepCoversCompose | python/src/bot.py:43-118 | a join check followed by a leave check covers the changes of the whole invocation |
| Bot.JoinStepCovers | python/src/bot.py:65-74 | connecting and then registering covers the new entry |
| Bot.StartInCovers | python/src/bot.py:62-74 | the calls after the text channel is found open a connection for the channel they register and close none |
| Bot.LeaveStepCovers | python/src/bot.py:102-105 | disconnecting and then unregistering keeps the invariant |
| Bot.ConnsAppend | python/src/bot.py:65 | open connections add up over concatenated action sequences |
| Channels.NonBotCount | python/src/bot.py:49 | the number of non-bot members is at most the number of members |
| Channels.NonBotCountZero | python/src/bot.py:90 | the non-bot count is zero exactly when every member is a bot |
| Channels.NonBotCountAppend | src/bot.js:36 | one more member raises the non-bot count by one exactly when that member is not a bot |
| Channels.FirstMatchIndex | src/bot.js:150-173 | `find` gives the position of the first matching channel, and -1 exactly when none matches |
| Channels.FindFirst | src/bot.js:150-173 | `find` returns a channel exactly when one matches, and then the first one |
| Channels.ResolveTextChannel | src/bot.js:146-174 | the related text channel, in order of precedence: the first `general` or `一般` text channel of the category, then the first guild text channel with the voice channel's name, then the system channel, then the first text channel. The result is none exactly when all four fail. |
| Channels.TextChannelGuaranteesResolution | python/src/bot.py:174-176 | a guild with any text channel always yields a related channel |
| Channels.FindRelatedTextChannelPy | python/src/bot.py:146-178 | the loop version in bot.py returns the same channel as the first-match definition shared with bot.js |
| RecorderPy.GetSinkClass | python/src/recorder.py:9-24 | `wav` and `ogg`, in any case, select their sinks; every other format records MP3 |
| RecorderPy.SinkIgnoresCase | python/src/recorder.py:24 | the sink choice does not depend on letter case |
| RecorderPy.BitrateFilter | python/src/recorder.py:56 | the filter bitrate is the configured kbps times 1000, defaulting to 128 kbps |
| RecorderPy.SanitizeChannelName | python/src/recorder.py:46 | same length; every character is alphanumeric, `-` or `_`; kept characters stay in place; no `/` or `.` survives. Alphanumeric is the partial table of Charsets.IsAlnumPy. |
| RecorderPy.Filename | python/src/recorder.py:45-47 | the file name starts with the 19-character local stamp and has room for separator, name, dot and format |
| RecorderPy.FilenameTakesApart | python/src/recorder.py:45-47 | the file name parses back into the stamp's second, `_`, the sanitised channel name, `.`, and the format |
| RecorderPy.FilenameInjective | python/src/recorder.py:45-47 | two equal file names with the same format come from the same second and the same sanitised channel name |
| RecorderPy.PathJoin | python/src/recorder.py:48 | `os.path.join` keeps an absolute second part and inserts exactly one `/` otherwise |
| RecorderPy.DirNameOfJoin | python/src/recorder.py:108 | the directory of the joined path is empty exactly when the storage path is empty |
| RecorderPy.StartRecording | python/src/recorder.py:26-73 | a started session holds the joined output path, the file name, the chosen sink with its bitrate and the start time; a failing start returns nothing |
| RecorderPy.StopRecording | python/src/recorder.py:75-158 | under three seconds nothing is stopped and None is returned. Stopping, directory creation, empty audio or a failed write return None. Otherwise the first user's audio is written and uploaded. Success gives link and id, deleting the file when `autoDeleteLocalFiles` is absent or truthy. An upload failure keeps the local path. |
| RecorderPy.EmptyStoragePathNeverUploads | python/src/recorder.py:108 | with an empty `localStoragePath`, `os.makedirs('')` raises and no recording is ever uploaded |
| RecorderPy.FilenameMimeType | python/src/drive.py:141-161 | the upload's MIME type is the table entry of the configured format |
| RecorderPy.SinkMatchesUploadType | python/src/recorder.py:9-24 | for `mp3`, `wav` and `ogg` the sink's encoding matches the MIME type of the upload |
| RecorderPy.FlacRecordsMp3 | python/src/recorder.py:20-24 | a `flac` recording is encoded as MP3 but uploaded as `audio/flac` |
| RecorderPy.StampIsPlain | python/src/recorder.py:45 | the time stamp holds no `/` or `.` and starts with a digit |
| RecorderJs.SanitizeChannelName | src/recorder.js:21 | one character per UTF-16 code unit of the name, each an ASCII word character or `-`; for a name with no character outside the Basic Multilingual Plane, ASCII word characters and `-` stay in place and every other character becomes `_` |
| RecorderJs.SanitizeChannelNameIdempotent | src/recorder.js:21 | sanitising twice is sanitising once |
| RecorderJs.SanitisersDivergeOnKanji | src/recorder.js:21 | `日本語` survives the Python sanitiser and becomes `___` in JavaScript |
| RecorderJs.SanitisersDivergeOnEmoji | src/recorder.js:21 | `🎤` becomes `_` in Python and `__` in JavaScript |
| RecorderJs.Filename | src/recorder.js:20-22 | the file name starts with the 24-character ISO stamp, which holds no `:` and no `.`; its length counts the channel name in UTF-16 code units |
| RecorderJs.FilenamesShareStamp | src/recorder.js:20 | the JavaScript name, stamped in UTC, and the Python name, stamped in local time, agree on their first 19 characters exactly when the two clock readings agree to the second; then JavaScript continues with `-` where Python has `_` |
| RecorderJs.FilenameMimeType | src/drive.js:125-137 | the upload's MIME type is the table entry of the configured format |
| RecorderJs.BitrateArg | src/recorder.js:41 | the `-b:a` argument ends in `k` and reads `undefinedk` when no bitrate is configured |
| RecorderJs.FfmpegArgs | src/recorder.js:36-43 | the eleven arguments in order: `-f s16le`, `-ar 48000`, `-ac 2`, `-c:a libmp3lame`, `-b:a` with the bitrate argument, and the output path last |
| RecorderJs.BitrateArgReadsBack | src/recorder.js:41 | a configured bitrate reads back from the argument and agrees with Python's filter |
| RecorderJs.MissingBitrateDiverges | src/recorder.js:41 | without a configured bitrate Python uses 128 kbps, while JavaScript passes an argument with no number |
| RecorderJs.WavFileHoldsMp3 | src/recorder.js:36-43 | a `wav` recording is MP3-encoded but named and uploaded as `audio/wav` |
| RecorderJs.OnEvent | src/recorder.js:57-81 | a speaking user without a stream gets a new one, and a user with one is ignored. A stream's end removes its user from the table. |
| RecorderJs.OnEventKeepsInv | src/recorder.js:57-81 | the table maps each user to an open stream of that user and every open stream is in the table |
| RecorderJs.RunKeepsInv | src/recorder.js:57-81 | the table invariant holds after any sequence of speaking and end events |
| RecorderJs.OneOpenStreamPerUser | src/recorder.js:58 | a user never has two open streams |
| RecorderJs.LiveStreamsAreOpen | src/recorder.js:127-129 | the streams in the table are exactly the open ones |
| RecorderJs.StartRecording | src/recorder.js:17-102 | a started session holds the joined path, the file name, the ffmpeg arguments, an empty stream table and the start time; a failing start returns nothing |
| RecorderJs.StopRecording | src/recorder.js:111-176 | under three seconds nothing is touched and null is returned. Otherwise every open stream is destroyed, ffmpeg is ended and the file uploaded, with no check on audio. Success gives link and id, deleting the file only when `autoDeleteLocalFiles` is truthy. An upload failure keeps the local path. |
| RecorderJs.StopDestroysOpenStreams | src/recorder.js:127-129 | whatever was heard, the stop destroys exactly the streams still open |
| RecorderJs.SilenceDiverges | src/recorder.js:132-144 | with no audio captured, Python returns None without uploading, while JavaScript uploads |
| RecorderJs.AbsentAutoDeleteDiverges | src/recorder.js:147-151 | without `autoDeleteLocalFiles`, Python deletes the uploaded file and JavaScript keeps it |
| Recording.ShareLink | python/src/bot.py:108 | a link is posted exactly for an uploaded outcome with a non-empty link |
| DrivePy.ContainsKey | python/src/drive.py:38-44 | `in` on a parsed credentials file tests object keys, and raises `TypeError` for numbers, booleans and null |
| DrivePy.ClassifyPy | python/src/drive.py:38-68 | a service-account file when `type` is `service_account`, else OAuth when `installed` or `web` is a key, else unsupported. Arrays and strings test membership differently, and other values raise. |
| DrivePy.AuthorizePy | python/src/drive.py:14-72 | a missing or unparseable file is an error. A service-account file authorises exactly when the key-file loader accepts it. An OAuth file fails on a token file that cannot be loaded, uses a valid stored token, and otherwise needs the refresh or flow to succeed. |
| DrivePy.RequestPy | python/src/drive.py:97-116 | the request names the file, describes the channel and local time, sets a parent only for a truthy folder id, uses the table's MIME type and asks for `id,name,webViewLink` |
| DrivePy.UploadToDrive | python/src/drive.py:74-139 | a request is sent exactly when authorisation succeeds. The permission call follows exactly when the file was created, on the created file's id, granting `reader` to `anyone`. The upload succeeds exactly when the create and the permission call both succeed, and returns the created file. |
| DrivePy.DescriptionNamesChannel | python/src/drive.py:97-100 | equal descriptions name the same channel and the same second |
| DrivePy.GetMimeType | python/src/drive.py:141-161 | the MIME type is not `application/octet-stream` exactly when the lower-cased `splitext` extension is one of the five audio extensions |
| DriveJs.Property | src/drive.js:29-39 | a property read finds a value only on an object that has the key |
| DriveJs.Client | src/drive.js:37-38 | the client section `installed || web` exists only for an object and is truthy exactly when `installed` or `web` is |
| DriveJs.ClassifyJs | src/drive.js:26-53 | a service-account file when `type` is `service_account`, else OAuth when `installed` or `web` is truthy, else unsupported; a null file throws. For a truthy client section the file is OAuth exactly when its `redirect_uris` is present and not null, and throws a `TypeError` otherwise. |
| DriveJs.AuthorizeJs | src/drive.js:14-59 | a missing or unparseable file is an error; an OAuth file needs a readable token file and never runs a flow |
| DriveJs.RequestJs | src/drive.js:76-98 | the request names the file, describes the channel and locale time, sets a parent for a truthy folder id, uses the table's MIME type and asks for `id,name,webViewLink` |
| DriveJs.UploadToDrive | src/drive.js:69-118 | a request is sent exactly when authorisation succeeds. The permission call follows exactly when the file was created, on the created file's id, granting `reader` to `anyone`. The upload succeeds exactly when the create and the permission call both succeed. |
| DriveJs.GetMimeType | src/drive.js:125-137 | the MIME type is not `application/octet-stream` exactly when the lower-cased `extname` extension is one of the five audio extensions |
| DriveJs.ServiceAccountAgrees | src/drive.js:29 | for objects, both languages recognise a service-account file alike |
| DriveJs.OAuthJsImpliesPy | src/drive.js:37 | every file JavaScript treats as OAuth, Python treats as OAuth too |
| DriveJs.CredentialTestsDiverge | src/drive.js:29-39 | three concrete files on which the two credential tests disagree |
| DriveJs.MissingTokenDiverges | src/drive.js:45-50 | without a token file Python runs the OAuth flow, while JavaScript fails |
| DriveJs.RequestsAgree | src/drive.js:76-98 | for a string folder id and a file name both extension functions read alike, the JavaScript request equals the Python one except for the time text |
| Drive.Description | python/src/drive.py:99 | the description holds the channel name and ends with the time text |
| Drive.DescriptionInjective | python/src/drive.py:99 | the description determines the channel name and a fixed-width time text |
| Drive.MetadataFor | python/src/drive.py:97-104 | the metadata has the file name, the description, and a parent exactly when a folder is given |
| Drive.Send | python/src/drive.py:112-135 | the upload succeeds exactly when both the create and the permission call succeed, returns the created file, which is the file the permission names, and otherwise says which call failed |
| Drive.ShareCall | python/src/drive.py:121-127 | the permission call is made exactly when the create call succeeded, on the id it returned, granting `reader` to `anyone` |
| Media.MimeForExt | python/src/drive.py:150-161 | the table maps exactly the five audio extensions away from `application/octet-stream` |
| Media.ExtPy | python/src/drive.py:151 | `splitext` gives an empty extension or a dot-led tail shorter than the path |
| Media.ExtJs | src/drive.js:126 | `extname` gives an empty extension or a dot-led tail shorter than the path |
| Media.ExtensionShape | python/src/drive.py:151 | both extensions lie in the last path component and are tails of the path |
| Media.MimeTypePy | python/src/drive.py:141-161 | audio types exactly for the five lower-cased extensions |
| Media.MimeTypeJs | src/drive.js:125-137 | audio types exactly for the five lower-cased extensions |
| Media.ExtOfSuffix | python/src/drive.py:151 | a name `stem.ext` with a plain stem has the extension `.ext` in both languages |
| Media.LastExtensionCounts | python/src/drive.py:151 | `a.mp3.txt` is not audio in either language |
| Media.LeadingDotsDiverge | src/drive.js:126 | `..mp3` is `application/octet-stream` in Python and `audio/mpeg` in JavaScript |
| Media.ExtensionsAgree | src/drive.js:126 | without trailing `/` and when the last component does not start with a dot, the two extensions agree |
| Config.AutoDeleteDiverges | python/src/recorder.py:136 | the two delete decisions differ exactly when the key is absent, an empty array or an empty object |
| Config.FolderPy | python/src/drive.py:103-104 | a parent folder is set exactly for a present, truthy folder id |
| Config.FolderJs | src/drive.js:82-84 | a parent folder is set exactly for a truthy folder id, where empty arrays and objects are truthy |
| Config.StringFolderAgrees | src/drive.js:82-84 | for a string folder id both languages agree, and set it exactly when it is non-empty |
| JsonValues.TruthinessDiffers | python/src/recorder.py:136 | Python and JavaScript truthiness differ exactly on the empty array and the empty object |
| UtilsPy.SanitizeFilename | python/src/utils.py:8-20 | same length; every character is a word character, `-` or `.`; kept characters stay in place |
| UtilsPy.SanitizeFilenameIdempotent | python/src/utils.py:19 | sanitising twice is sanitising once |
| UtilsPy.FormatDuration | python/src/utils.py:31-49 | for non-negative input the text ends in `秒`, shows hours exactly from 3600 s and minutes exactly from 60 s |
| UtilsPy.FormatDurationDecomposes | python/src/utils.py:41-49 | the text shows the h·3600 + m·60 + s decomposition with m, s below 60, leaving out zero leading units |
| UtilsPy.FormatDurationInjective | python/src/utils.py:31-49 | two non-negative durations give the same text exactly when they are equal |
| UtilsPy.FormatNegativeDuration | python/src/utils.py:41-42 | `divmod` floors, so -1 s is shown as `59分59秒` |
| UtilsPy.GetConfig | python/src/utils.py:51-83 | an unreadable file gives the default, and no key gives the whole configuration. A plain key reads the top-level object, or gives the default. A dotted key follows the path of its parts. |
| UtilsPy.WalkIsLookup | python/src/utils.py:70-78 | the `in` / index walk, where a raise gives the default, is the plain nested-object lookup |
| UtilsPy.DottedKeyFindsNestedValue | python/src/utils.py:70-78 | a dotted key finds the value nested under its parts |
| UtilsPy.MissingPartGivesDefault | python/src/utils.py:73-76 | a dotted key with a part missing on the way gives the default |
| UtilsJs.TruncRem | src/utils.js:12-13 | JavaScript's `%` is non-negative and Euclidean on non-negative input, non-positive on negative input, and always differs from the dividend by a multiple of the divisor |
| UtilsJs.FormatDurationJs | src/utils.js:10-28 | the text ends in `秒`; hours and minutes appear exactly as in Python for non-negative input, and never for negative input |
| UtilsJs.FormatDurationAgrees | src/utils.js:10-28 | for whole non-negative milliseconds the JavaScript text equals Python's for the whole seconds |
| UtilsJs.FormatDurationDivergesBelowZero | src/utils.js:10-28 | -1 s is `-1秒` in JavaScript and `59分59秒` in Python |
| UtilsJs.ReplaceForbidden | src/utils.js:109 | each of `<>:"/\|?*` becomes `_` and every other character stays |
| UtilsJs.Collapse | src/utils.js:110-111 | the result is empty exactly for empty input and starts with the first character or its replacement. Every class character in it is the replacement, and no two class characters stand side by side. |
| UtilsJs.CollapseRun | src/utils.js:110-111 | a whole run, however long, becomes one replacement character |
| UtilsJs.CollapseAppend | src/utils.js:110-111 | collapsing distributes over a concatenation whose seam is not inside a run |
| UtilsJs.CollapseAroundKept | src/utils.js:110-111 | a character outside the class stays in place, and what is before and after it is collapsed separately |
| UtilsJs.CollapseCollapsed | src/utils.js:110-111 | collapsing a collapsed string changes nothing |
| UtilsJs.Trim | src/utils.js:113 | `trim` returns a slice of the input with only whitespace cut off before and after it, and neither end of the result is whitespace |
| UtilsJs.ReplaceLeadingDot | src/utils.js:112 | only a leading dot is replaced |
| UtilsJs.CollapseRuns | src/utils.js:109-111 | after the first three replacements the text has no forbidden character, no whitespace and no two dots in a row, and is empty only for empty input |
| UtilsJs.SanitizeFilenameJs | src/utils.js:106-114 | the result is no longer than the input and empty exactly when the input is. It has no forbidden character or whitespace, no `..` and no leading dot. |
| UtilsJs.SanitizeFixedPoints | src/utils.js:106-114 | a name is unchanged by the sanitiser exactly when it is already safe |
| UtilsJs.SanitizeFilenameJsIdempotent | src/utils.js:106-114 | sanitising twice is sanitising once |
| UtilsJs.TrimIsIdle | src/utils.js:113 | the final `trim` never changes anything, because the earlier steps leave no whitespace |
| UtilsJs.SanitizeAroundPlain | src/utils.js:106-114 | a character that no step touches splits the name: the part before is sanitised as a name of its own, the part after only loses its runs |
| UtilsJs.SanitizeSpaceRun | src/utils.js:110 | a run of whitespace between two untouched characters becomes one `_` |
| UtilsJs.SanitisersDivergeOnDots | src/utils.js:111-112 | `..` stays `..` in Python and becomes `_` in JavaScript |
| UtilsJs.SanitisersDivergeOnRuns | src/utils.js:110 | `a  b` becomes `a__b` in Python and `a_b` in JavaScript |
| Charsets.ReplaceDisallowed | python/src/utils.py:19 | the character-wise sanitisers keep allowed characters and turn every other into `_` |
| Charsets.ReplaceDisallowedIdempotent | python/src/recorder.py:46 | every character-wise sanitiser is idempotent |
| Charsets.JsSanitiserAbsorbsPy | src/recorder.js:21 | the JavaScript channel-name sanitiser after the Python one is the JavaScript one alone exactly when Python keeps every character outside the Basic Multilingual Plane |
| Charsets.Utf16Length | src/recorder.js:21 | a string takes between one and two code units per character, and exactly one each when no character lies outside the Basic Multilingual Plane |
| Charsets.ReplaceNonWordUnitsOnBmp | src/recorder.js:21 | the code-unit replacement equals the one-for-one sanitiser exactly when no character lies outside the Basic Multilingual Plane |
| Charsets.ReplaceNonWordUnitsAppend | src/recorder.js:21 | the code-unit replacement distributes over concatenation |
| Charsets.ReplaceNonWordUnitsIdempotent | src/recorder.js:21 | the code-unit replacement is idempotent |
| Timestamps.StampPyRoundTrip | python/src/recorder.py:45 | the `%Y-%m-%dT%H-%M-%S` stamp parses back to its date and time to the second |
| Timestamps.StampPyInjectiveToTheSecond | python/src/recorder.py:45 | two stamps are equal exactly when the times agree to the second |
| Timestamps.LayoutRoundTrip | python/src/drive.py:99 | every fixed-width date-time layout, including the description's, parses back |
| Timestamps.StampJs | src/recorder.js:20 | the ISO stamp with `:` and `.` replaced is 24 characters with neither |
| Timestamps.StampJsExtendsStampPy | src/recorder.js:20 | the JavaScript stamp is the Python stamp followed by `-`, the milliseconds and `Z` |
| Strings.ReplaceAll | python/src/bot.py:117 | occurrences are rewritten left to right without overlap: the length changes by one replacement-length difference per occurrence, and without an occurrence the string is unchanged |
| Strings.Pieces | python/src/bot.py:117 | `str.split` by a non-empty pattern: one piece more than there are occurrences, a single piece exactly when there is none, and the first piece is the text before the first occurrence |
| Strings.JoinPiecesWithPattern | python/src/bot.py:117 | joining the pieces with the pattern gives back the string |
| Strings.PiecesFree | python/src/bot.py:117 | no piece contains the pattern |
| Strings.ReplaceAllJoinsPieces | python/src/bot.py:117 | replacing every occurrence is `rep.join(s.split(pat))` |
| Strings.WholeMatchReplaced | src/bot.js:99 | a string that is exactly the pattern becomes the replacement in Python and the expanded replacement in JavaScript |
| Strings.ReplaceFirst | src/bot.js:99 | only the first occurrence is rewritten |
| Strings.ReplaceFirstJs | src/bot.js:99 | JavaScript's `replace` with a string pattern: no occurrence leaves the string unchanged; otherwise the text before and after the first occurrence stays and the occurrence becomes the replacement with `$$`, `$&`, `` $` `` and `$'` expanded. Without `$` this is the plain first replacement. |
| Strings.ReplaceAllAgreesWithFirst | src/bot.js:99 | with at most one occurrence, replacing all is replacing the first |
| Strings.ReplaceFirstLeavesPattern | src/bot.js:99 | with two or more occurrences, replacing the first leaves the pattern in the text |
| Strings.ReplaceFirstJsLeavesPattern | src/bot.js:99 | with two or more occurrences, JavaScript's replacement leaves the pattern in the text whatever the replacement |
| Strings.Split | python/src/utils.py:71 | `str.split('.')` gives parts free of the separator |
| Strings.JoinSplit | python/src/utils.py:71 | joining the parts with the separator gives back the key |
| Numerals.NatToStringRoundTrip | python/src/utils.py:44-49 | the decimal text of a number reads back as that number |
| Numerals.ReadNumberRoundTrip | src/recorder.js:41 | reading a number off the front of its text followed by a non-digit gives the number and the rest |

## Left out

- Charsets.IsAlnumPy: `str.isalnum` and Python's Unicode `\w` cover every
  Unicode script. The table is partial: ASCII, the Latin-1 letters and
  numerics, the ideographic marks, hiragana and katakana with their
  prolonged-sound and iteration marks, the CJK unified ideographs and
  extension B, Hangul syllables, full-width digits and letters and
  half-width katakana. Other alphanumerics, such as Greek, Cyrillic or
  Arabic letters, count as disallowed.
- RecorderPy.SanitizeChannelName: turns into `_` the alphanumerics outside
  the Charsets.IsAlnumPy table, which Python keeps. The other contract
  clauses hold for any table.
- UtilsPy.SanitizeFilename: the same holds for the word characters outside
  the table.
- Strings.LowerAscii: `.lower()` / `toLowerCase()` are modelled on ASCII
  only. That is all the MIME table and the sink choice can match.
- RecorderPy.StopRecording: the duration is whole microseconds, the
  resolution of `timedelta`. The float `total_seconds()` and its rounding
  are not modelled.
- RecorderJs.StopRecording: the duration is whole milliseconds
  (`Date` resolution), so `duration < 3` is `ms < 3000`. The one-second
  wait after ending the streams is not modelled.
- UtilsJs.FormatDurationJs takes whole milliseconds, and UtilsPy.FormatDuration takes whole seconds after `int()`; fractional floats are not modelled.
- Media.ExtJs: Node's `path.join` normalisation (`..`, `.` and repeated
  `/`) is not modelled. The join is RecorderPy.PathJoin for both
  languages, which is exact for a storage path and a base name without
  such segments.
- Channels: whether a channel is a text channel (`isinstance(...,
  TextChannel)` / `isTextBased()`) is a boolean of the channel. The SDKs'
  channel-type tables are not part of this model.
- Config: `config.json` is a record. The format, storage path and
  templates are strings. The two truthiness-sensitive keys are JSON
  values, so Python and JavaScript truthiness are exact.
- Python: `config.json` is read again before the start message
  (python/src/bot.py:57-59), before the end message (bot.py:110-112),
  inside `start_recording` and `stop_recording`, and at the start of
  `upload_to_drive` (python/src/drive.py:89-90). These re-reads are not
  modelled: the configuration is one parameter. A read that raises has
  the effect of the send or upload failure that follows it.
- `sink.get_all_audio()` is a sequence of tracks in dictionary order.
  The py-cord sink and its audio file objects are not part of this model.
- DrivePy.AuthorizePy: the OAuth refresh, the browser flow and the
  writing of `token.json` are one success flag. The stored token is one
  of five states, one of which is a file that cannot be read or loaded.
  Which token files `from_authorized_user_info` rejects is not modelled.
  Whether `from_service_account_file` accepts a key file is a flag. That
  `token.json` is rewritten is the predicate DrivePy.SavesToken.
- Drive: the `drive.file` scope that both versions request at
  authorisation is not modelled. Only the Google client libraries read it.
- Drive.Description: JavaScript's `toLocaleString()` text is a parameter,
  because its format depends on the host locale.
- RecorderJs.FilenamesShareStamp: the Python reading is local time and
  the JavaScript one UTC. The two are independent parameters; the host's
  time zone, which relates them, is not modelled.
- Strings.Substitute: `$1` to `$99` and `$<name>` stand for themselves,
  since a string pattern has no capture groups.
- Bot.ShareTextsAgree: requires a link without `$`. Such a link is
  expanded by JavaScript and taken literally by Python
  (Bot.DollarLinkDiverges).
- BotJs.AfterStopsAgree: requires a link without `$`, for the same
  reason.
- Bot.ShareTextsDiverge: the length-based difference is stated only for
  links without `$`.
- RecorderJs.StopRecording: `stream.destroy()`, `ffmpeg.end()` and
  `outputStream.end()` are assumed not to throw.
- The ffmpeg process, the Opus decoder, audio mixing, and the bytes of
  the recorded file are not modelled.
- Left out entirely:
  - logging;
  - the `help` command and `on_ready`;
  - `ensure_directory_exists`, `get_timestamp` and `get_file_size`;
  - `formatFileSize`, `cleanupTempDirectory` and `reloadConfig`;
  - the entry points `python/main.py` and `index.js`.

  None of these changes the registry, the recordings or the uploads.
- BotJs.JoinJs: `joinVoiceChannel` keys its connection by guild. For a
  guild that already has one it moves that connection to the new channel
  rather than opening another. The model emits `Connected` for the joined
  channel either way.
- BotJs.UpdateCoversJs: connections are counted per channel. In bot.js
  two registered channels of one guild share a connection, and the
  destroy for one of them closes the other's too
  (BotJs.DestroyClosesSharedConnection).
- BotJs.RegisteredAreConnected: holds for the per-channel count only. It
  matches bot.js while at most one channel per guild is recorded at a
  time; with two, a registered channel can be left without a connection.
- BotPy.JoinCoversPy: py-cord's `channel.connect()` raises for a second
  channel of a guild that already has a voice connection. That failure is
  the `connectOk` flag being false, so the Python invariant is unaffected.
- Concurrency: handler invocations run one at a time. Interleavings at
  an `await` are not modelled.
