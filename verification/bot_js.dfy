/** bot.js: the `VoiceStateUpdate` handler, one invocation at a time. The
    registry is `activeRecordings`; every `await` and SDK call the handler
    makes is answered by the environment. */
module BotJs {
  import opened Wrappers
  import opened Channels
  import opened Timestamps
  import opened Config
  import opened Recording
  import opened Bot
  import RecorderJs
  import BotPy

  type Registry = map<ChannelId, Entry<RecorderJs.SessionJs>>

  /** A voice state's channel: none (`channelId` null), a channel the
      client has cached, or an id whose channel object is null. */
  datatype ChannelRef = NoChannel | Cached(vc: VoiceChannel) | Uncached(id: ChannelId)

  function IdOf(r: ChannelRef): (id: Option<ChannelId>)
    ensures id.None? <==> r.NoChannel?
  {
    match r
    case NoChannel => None
    case Cached(vc) => Some(vc.id)
    case Uncached(id) => Some(id)
  }

  /** A voice-state update: whether the member is a bot, and the old and
      new states' channels. */
  datatype Update = Update(memberIsBot: bool, before: ChannelRef, after: ChannelRef)

  /** The answers to the handler's calls: `config.json` as loaded at
      start-up, the text channels whose `send` of the start message
      rejects, whether `joinVoiceChannel` and `startRecording` succeed and
      the clocks the latter reads, the speaking events the recording hears,
      the clock, locale time text and environment of `stopRecording`,
      whether `connection.destroy()` succeeds, and whether the `send` of
      the end message and of the share message succeed. */
  datatype EnvJs = EnvJs(
    config: Config,
    failingSends: set<ChannelId>,
    connectOk: bool,
    now: DateTime,
    startMs: int,
    startOk: bool,
    heard: seq<RecorderJs.StreamEvent>,
    nowMs: int,
    when: string,
    stop: RecorderJs.StopEnvJs,
    disconnectOk: bool,
    endSendOk: bool,
    shareSendOk: bool)

  predicate ValidEnv(env: EnvJs) {
    Valid(env.now)
  }

  /** Every call the join check makes on `vc` succeeds. */
  predicate JoinCallsSucceed(vc: VoiceChannel, env: EnvJs) {
    && ResolveTextChannel(vc).Some?
    && ResolveTextChannel(vc).value.id !in env.failingSends
    && env.connectOk
    && env.startOk
  }

  /** The join check on `vc` runs its calls and one of them throws or
      rejects. */
  predicate JoinRaises(reg: Registry, vc: VoiceChannel, env: EnvJs) {
    JoinWanted(reg, vc) && ResolveTextChannel(vc).Some? && !JoinCallsSucceed(vc, env)
  }

  /** The join part of the handler throws: the new channel's object is
      null, or the join check on it raises. */
  predicate JoinPartRaises(reg: Registry, after: ChannelRef, env: EnvJs) {
    after.Uncached? || (after.Cached? && JoinRaises(reg, after.vc, env))
  }

  /** The join check on `vc`, in the same order as bot.py: start message,
      voice connection, recording, registration; a rejection or a throw at
      any of the three calls ends the handler with the registry
      unchanged. */
  function JoinJs(reg: Registry, vc: VoiceChannel, env: EnvJs): (s: Step<RecorderJs.SessionJs>)
    requires ValidEnv(env)
    ensures s.registry.Keys <= reg.Keys + {vc.id}
    ensures forall c :: c in reg ==> c in s.registry && s.registry[c] == reg[c]
    ensures vc.id in s.registry && vc.id !in reg <==>
              && JoinWanted(reg, vc)
              && ResolveTextChannel(vc).Some?
              && ResolveTextChannel(vc).value.id !in env.failingSends
              && env.connectOk
              && env.startOk
    ensures vc.id in s.registry && vc.id !in reg ==>
              && s.registry[vc.id].textChannel == ResolveTextChannel(vc).value
              && Some(s.registry[vc.id].session) ==
                   RecorderJs.StartRecording(env.config, env.now, env.startMs, vc.name, true)
              && s.actions == [Sent(ResolveTextChannel(vc).value.id, env.config.messageTemplates.recordingStart),
                               Connected(vc.id), RecordingStarted(vc.id)]
    ensures s.raised ==> JoinWanted(reg, vc) && ResolveTextChannel(vc).Some? && s.registry == reg
    ensures s.raised <==> JoinRaises(reg, vc, env)
    ensures !JoinWanted(reg, vc) || ResolveTextChannel(vc).None? ==> s == Step(reg, [], false)
  {
    if !JoinWanted(reg, vc) then
      Step(reg, [], false)
    else
      match ResolveTextChannel(vc)
      case None => Step(reg, [], false)
      case Some(tc) =>
        StartIn(reg, vc, tc, env.config.messageTemplates.recordingStart, tc.id !in env.failingSends, env.connectOk,
                RecorderJs.StartRecording(env.config, env.now, env.startMs, vc.name, env.startOk))
  }

  /** What `stopRecording` returns for the entry's session, after the
      speaking events it heard. */
  function StopResult(e: Entry<RecorderJs.SessionJs>, vc: VoiceChannel, env: EnvJs): Option<Outcome> {
    RecorderJs.StopRecording(RecorderJs.Heard(e.session, env.heard), vc.name, env.config, env.nowMs, env.when, env.stop).result
  }

  /** What the leave check does once `stopRecording` has returned `result`
      for the entry of `vc`: destroy the connection (a throw leaves the
      entry), unregister, and post the end and share messages when the
      result has a link. */
  function AfterStopJs(reg: Registry, vc: VoiceChannel, result: Option<Outcome>, env: EnvJs): (s: Step<RecorderJs.SessionJs>)
    requires vc.id in reg
    ensures |s.actions| >= 1 && s.actions[0] == RecordingStopped(vc.id, result)
    ensures s.registry == if env.disconnectOk then reg - {vc.id} else reg
    ensures env.disconnectOk ==> |s.actions| >= 2 && s.actions[1] == Disconnected(vc.id)
    ensures s.raised <==> !env.disconnectOk || (ShareLink(result).Some? && !(env.endSendOk && env.shareSendOk))
  {
    var stopped := [RecordingStopped(vc.id, result)];
    if !env.disconnectOk then
      Step(reg, stopped, true)
    else
      var reg' := reg - {vc.id};
      match ShareLink(result)
      case None =>
        Step(reg', stopped + [Disconnected(vc.id)], false)
      case Some(link) =>
        var p := PostEndJs(reg[vc.id].textChannel, link, env);
        Step(reg', stopped + [Disconnected(vc.id)] + p.sent, p.raised)
  }

  /** The end and share messages of bot.js for a result with `link`. */
  function PostEndJs(tc: Channel, link: string, env: EnvJs): (p: Posted)
    ensures p.raised <==> !(env.endSendOk && env.shareSendOk)
    ensures |p.sent| <= 2 && NoConnectionChange(p.sent)
  {
    PostEnd(tc.id, env.config.messageTemplates.recordingEnd,
            ShareTextJs(env.config.messageTemplates.shareLink, link), env.endSendOk, env.shareSendOk)
  }

  /** After a stop, the end message goes to the entry's text channel
      exactly when the connection was destroyed, the result has a link and
      that send succeeds; the share message, with only the first `{link}`
      replaced, follows exactly when its own send succeeds too. A rejected
      share send leaves the end message posted and throws. */
  lemma AfterStopMessagesJs(reg: Registry, vc: VoiceChannel, result: Option<Outcome>, env: EnvJs)
    requires vc.id in reg
    ensures var s := AfterStopJs(reg, vc, result, env);
            var tc := reg[vc.id].textChannel;
            var posting := env.disconnectOk && ShareLink(result).Some?;
            && |s.actions| <= 4
            && (|s.actions| >= 3 <==> posting && env.endSendOk)
            && (|s.actions| >= 3 ==> s.actions[2] == Sent(tc.id, env.config.messageTemplates.recordingEnd))
            && (|s.actions| == 4 <==> posting && env.endSendOk && env.shareSendOk)
            && (|s.actions| == 4 ==>
                  s.actions[3] == Sent(tc.id, ShareTextJs(env.config.messageTemplates.shareLink, ShareLink(result).value)))
            && (|s.actions| == 3 ==> s.raised)
  {
  }

  /** The leave check on `vc`: with no non-bot member left and an entry,
      stop the recording and go on as `AfterStopJs`. */
  function LeaveJs(reg: Registry, vc: VoiceChannel, env: EnvJs): (s: Step<RecorderJs.SessionJs>)
    ensures !LeaveWanted(reg, vc) ==> s == Step(reg, [], false)
    ensures s.registry == reg || s.registry == reg - {vc.id}
    ensures vc.id !in s.registry <==> vc.id !in reg || (NonBotCount(vc.members) == 0 && env.disconnectOk)
    ensures LeaveWanted(reg, vc) ==>
              |s.actions| >= 1 && s.actions[0] == RecordingStopped(vc.id, StopResult(reg[vc.id], vc, env))
  {
    if !LeaveWanted(reg, vc) then Step(reg, [], false)
    else AfterStopJs(reg, vc, StopResult(reg[vc.id], vc, env), env)
  }

  /** The join part of the handler: the join check on a cached new
      channel; a new channel whose object is null makes the member count
      throw; no new channel, nothing. */
  function JoinPart(reg: Registry, after: ChannelRef, env: EnvJs): (s: Step<RecorderJs.SessionJs>)
    requires ValidEnv(env)
    ensures forall c :: c in s.registry && c !in reg ==> after.Cached? && c == after.vc.id
    ensures forall c :: c in reg ==> c in s.registry && s.registry[c] == reg[c]
    ensures s.raised <==> JoinPartRaises(reg, after, env)
    ensures s.raised ==> s.registry == reg
  {
    match after
    case Cached(vc) => JoinJs(reg, vc, env)
    case Uncached(_) => Step(reg, [], true)
    case NoChannel => Step(reg, [], false)
  }

  /** The `VoiceStateUpdate` handler: ignored for equal channel ids or a
      bot member; then the join part on the new channel; then, unless that
      threw, the leave check on the old channel, where a null channel
      object returns at once. */
  function UpdateJs(reg: Registry, u: Update, env: EnvJs): (s: Step<RecorderJs.SessionJs>)
    requires ValidEnv(env)
    ensures IdOf(u.before) == IdOf(u.after) || u.memberIsBot ==> s == Step(reg, [], false)
    ensures forall c :: c in reg && c !in s.registry ==> u.before.Cached? && c == u.before.vc.id
    ensures forall c :: c in s.registry && c !in reg ==> u.after.Cached? && c == u.after.vc.id
    ensures forall c :: c in reg && c in s.registry ==> s.registry[c] == reg[c]
  {
    if IdOf(u.before) == IdOf(u.after) || u.memberIsBot then
      Step(reg, [], false)
    else
      var j := JoinPart(reg, u.after, env);
      if j.raised || !u.before.Cached? then j
      else
        var l := LeaveJs(j.registry, u.before.vc, env);
        Step(l.registry, j.actions + l.actions, l.raised)
  }

  /** A move between two cached channels runs the join check on the new
      one and then the leave check on the old one. */
  lemma JoinThenLeave(reg: Registry, u: Update, env: EnvJs)
    requires ValidEnv(env)
    requires !u.memberIsBot && u.before.Cached? && u.after.Cached? && u.before.vc.id != u.after.vc.id
    ensures var j := JoinJs(reg, u.after.vc, env);
            var l := LeaveJs(j.registry, u.before.vc, env);
            UpdateJs(reg, u, env) == if j.raised then j else Step(l.registry, j.actions + l.actions, l.raised)
  {
  }

  /** A cached channel joined gains an entry exactly when the update is not
      ignored, the join check wants the channel and all its calls
      succeed. */
  lemma UpdateRegistersJs(reg: Registry, u: Update, env: EnvJs)
    requires ValidEnv(env)
    ensures u.after.Cached? ==>
              var a := u.after.vc;
              var s := UpdateJs(reg, u, env);
              (a.id in s.registry && a.id !in reg <==>
                 !u.memberIsBot && IdOf(u.before) != IdOf(u.after) && JoinWanted(reg, a) && JoinCallsSucceed(a, env))
  {
    if u.after.Cached? && !u.memberIsBot && IdOf(u.before) != IdOf(u.after) {
      var a := u.after.vc;
      var j := JoinJs(reg, a, env);
      if !j.raised && u.before.Cached? {
        var l := LeaveJs(j.registry, u.before.vc, env);
        assert u.before.vc.id != a.id;
        assert UpdateJs(reg, u, env).registry == l.registry;
      } else {
        assert UpdateJs(reg, u, env).registry == j.registry;
      }
    }
  }

  /** A cached channel left loses its entry exactly when the update is not
      ignored, the join part did not throw, no non-bot member is left and
      the connection is destroyed. */
  lemma UpdateUnregistersJs(reg: Registry, u: Update, env: EnvJs)
    requires ValidEnv(env)
    ensures u.before.Cached? && u.before.vc.id in reg ==>
              var b := u.before.vc;
              var s := UpdateJs(reg, u, env);
              (b.id !in s.registry <==>
                 && !u.memberIsBot && IdOf(u.before) != IdOf(u.after)
                 && !JoinPartRaises(reg, u.after, env)
                 && NonBotCount(b.members) == 0 && env.disconnectOk)
  {
    if u.before.Cached? && u.before.vc.id in reg && !u.memberIsBot && IdOf(u.before) != IdOf(u.after) {
      var b := u.before.vc;
      var j := JoinPart(reg, u.after, env);
      if !j.raised {
        var l := LeaveJs(j.registry, b, env);
        assert b.id in j.registry;
        assert UpdateJs(reg, u, env).registry == l.registry;
      } else {
        assert UpdateJs(reg, u, env).registry == reg;
      }
    }
  }

  /** A new channel whose object is null throws before anything happens:
      the leave check on the old channel is skipped. */
  lemma UncachedNewChannelThrows(reg: Registry, u: Update, env: EnvJs)
    requires ValidEnv(env)
    requires !u.memberIsBot && u.after.Uncached? && IdOf(u.before) != IdOf(u.after)
    ensures UpdateJs(reg, u, env) == Step(reg, [], true)
  {
  }

  /** An old channel whose object is null (deleted, say) ends the handler
      after the join check: its entry, if any, stays. */
  lemma UncachedOldChannelKeepsEntry(reg: Registry, u: Update, env: EnvJs)
    requires ValidEnv(env)
    requires !u.memberIsBot && u.before.Uncached? && !u.after.Uncached? && IdOf(u.before) != IdOf(u.after)
    ensures u.before.id in reg ==> u.before.id in UpdateJs(reg, u, env).registry
    ensures u.after.NoChannel? ==> UpdateJs(reg, u, env) == Step(reg, [], false)
  {
  }

  /** A channel that already has an entry keeps it through a join. */
  lemma JoinNeverReplaces(reg: Registry, vc: VoiceChannel, env: EnvJs)
    requires ValidEnv(env) && vc.id in reg
    ensures JoinJs(reg, vc, env) == Step(reg, [], false)
  {
  }

  // ---------------------------------------------------------------------
  // The two handlers side by side

  /** For cached channels, registries with the same channels and
      environments that fail alike, the two join checks register the same
      channels, send the same start message and raise alike. */
  lemma JoinsAgree(regPy: BotPy.Registry, regJs: Registry, vc: VoiceChannel, envPy: BotPy.EnvPy, envJs: EnvJs)
    requires BotPy.ValidEnv(envPy) && ValidEnv(envJs)
    requires regPy.Keys == regJs.Keys
    requires envPy.config == envJs.config && envPy.failingSends == envJs.failingSends
    requires envPy.connectOk == envJs.connectOk && envPy.startOk == envJs.startOk
    ensures BotPy.JoinPy(regPy, vc, envPy).registry.Keys == JoinJs(regJs, vc, envJs).registry.Keys
    ensures BotPy.JoinPy(regPy, vc, envPy).actions == JoinJs(regJs, vc, envJs).actions
    ensures BotPy.JoinPy(regPy, vc, envPy).raised == JoinJs(regJs, vc, envJs).raised
  {
  }

  /** Given the same stop result, the two leave checks unregister alike and
      send the same messages except for the share text, which agrees when
      the template holds `{link}` at most once and the link holds no `$`. */
  lemma AfterStopsAgree(regPy: BotPy.Registry, regJs: Registry, vc: VoiceChannel, result: Option<Outcome>,
                        envPy: BotPy.EnvPy, envJs: EnvJs)
    requires vc.id in regPy && vc.id in regJs
    requires regPy.Keys == regJs.Keys && regPy[vc.id].textChannel == regJs[vc.id].textChannel
    requires envPy.config == envJs.config
    requires envPy.disconnectOk == envJs.disconnectOk
    requires envPy.endSendOk == envJs.endSendOk && envPy.shareSendOk == envJs.shareSendOk
    requires Strings.Count(envJs.config.messageTemplates.shareLink, LinkPlaceholder) <= 1
    requires ShareLink(result).Some? ==> '$' !in ShareLink(result).value
    ensures BotPy.AfterStopPy(regPy, vc, result, envPy).registry.Keys == AfterStopJs(regJs, vc, result, envJs).registry.Keys
    ensures BotPy.AfterStopPy(regPy, vc, result, envPy).actions == AfterStopJs(regJs, vc, result, envJs).actions
    ensures BotPy.AfterStopPy(regPy, vc, result, envPy).raised == AfterStopJs(regJs, vc, result, envJs).raised
  {
    if ShareLink(result).Some? {
      ShareTextsAgree(envJs.config.messageTemplates.shareLink, ShareLink(result).value);
    }
  }

  // ---------------------------------------------------------------------
  // Voice connections

  lemma JoinCoversJs(reg: Registry, vc: VoiceChannel, env: EnvJs)
    requires ValidEnv(env)
    ensures var s := JoinJs(reg, vc, env);
            StepCovers(reg.Keys, s.registry.Keys, s.actions)
  {
    if !JoinWanted(reg, vc) || ResolveTextChannel(vc).None? {
      QuietStepCovers(reg.Keys, []);
    } else {
      var tc := ResolveTextChannel(vc).value;
      StartInCovers(reg, vc, tc, env.config.messageTemplates.recordingStart, tc.id !in env.failingSends, env.connectOk,
        RecorderJs.StartRecording(env.config, env.now, env.startMs, vc.name, env.startOk));
    }
  }

  lemma AfterStopCoversJs(reg: Registry, vc: VoiceChannel, result: Option<Outcome>, env: EnvJs)
    requires vc.id in reg
    ensures var s := AfterStopJs(reg, vc, result, env);
            StepCovers(reg.Keys, s.registry.Keys, s.actions)
  {
    var s := AfterStopJs(reg, vc, result, env);
    var stopped := [RecordingStopped(vc.id, result)];
    if !env.disconnectOk {
      QuietStepCovers(reg.Keys, stopped);
    } else {
      var link := ShareLink(result);
      var post := if link.Some? then PostEndJs(reg[vc.id].textChannel, link.value, env).sent else [];
      assert s.actions == stopped + [Disconnected(vc.id)] + post;
      assert s.registry.Keys == reg.Keys - {vc.id};
      LeaveStepCovers(reg.Keys, vc.id, stopped, post);
    }
  }

  lemma LeaveCoversJs(reg: Registry, vc: VoiceChannel, env: EnvJs)
    ensures var s := LeaveJs(reg, vc, env);
            StepCovers(reg.Keys, s.registry.Keys, s.actions)
  {
    if LeaveWanted(reg, vc) {
      AfterStopCoversJs(reg, vc, StopResult(reg[vc.id], vc, env), env);
    } else {
      QuietStepCovers(reg.Keys, []);
    }
  }

  lemma UpdateCoversJs(reg: Registry, u: Update, env: EnvJs)
    requires ValidEnv(env)
    ensures var s := UpdateJs(reg, u, env);
            StepCovers(reg.Keys, s.registry.Keys, s.actions)
  {
    var s := UpdateJs(reg, u, env);
    QuietStepCovers(reg.Keys, []);
    if !(IdOf(u.before) == IdOf(u.after) || u.memberIsBot) {
      var j := JoinPart(reg, u.after, env);
      if u.after.Cached? {
        JoinCoversJs(reg, u.after.vc, env);
      }
      if j.raised || !u.before.Cached? {
        assert s == j;
      } else {
        var l := LeaveJs(j.registry, u.before.vc, env);
        assert s == Step(l.registry, j.actions + l.actions, l.raised);
        LeaveCoversJs(j.registry, u.before.vc, env);
        StepCoversCompose(reg.Keys, j.registry.Keys, l.registry.Keys, j.actions, l.actions);
      }
    }
  }

  // ---------------------------------------------------------------------
  // One connection per guild

  /** @discordjs/voice keeps one voice connection per guild:
      `joinVoiceChannel` for a guild that has one moves it to the new
      channel, and `destroy()` closes it whichever channel it was opened
      for. Read that way, with `guildOf` naming each voice channel's guild,
      guild `g` has an open connection after `trace` when the last
      connection action on one of its channels opened one. */
  function GuildConnectionOpen(trace: seq<Action>, guildOf: ChannelId -> nat, g: nat): bool
    decreases |trace|
  {
    if |trace| == 0 then false
    else
      var a := trace[|trace| - 1];
      if (a.Connected? || a.Disconnected?) && guildOf(a.voice) == g then a.Connected?
      else GuildConnectionOpen(trace[..|trace| - 1], guildOf, g)
  }

  /** Actions that open or close no connection leave every guild's
      connection as it was. */
  lemma {:induction false} QuietKeepsGuildConnection(trace: seq<Action>, quiet: seq<Action>, guildOf: ChannelId -> nat, g: nat)
    requires NoConnectionChange(quiet)
    ensures GuildConnectionOpen(trace + quiet, guildOf, g) == GuildConnectionOpen(trace, guildOf, g)
    decreases |quiet|
  {
    if |quiet| == 0 {
      assert trace + quiet == trace;
    } else {
      var q' := quiet[..|quiet| - 1];
      assert (trace + quiet)[..|trace + quiet| - 1] == trace + q';
      assert (trace + quiet)[|trace + quiet| - 1] == quiet[|quiet| - 1];
      QuietKeepsGuildConnection(trace, q', guildOf, g);
    }
  }

  /** When another channel of the same guild is registered too, the leave
      check's `connection.destroy()` closes the guild's one connection while
      that other channel stays registered; counted per channel, as the
      covering lemmas count, the other channel still looks connected. */
  lemma DestroyClosesSharedConnection(reg: Registry, vc: VoiceChannel, other: ChannelId, result: Option<Outcome>,
                                      env: EnvJs, trace: seq<Action>, guildOf: ChannelId -> nat)
    requires vc.id in reg && other in reg && other != vc.id
    requires guildOf(other) == guildOf(vc.id)
    requires env.disconnectOk
    ensures var s := AfterStopJs(reg, vc, result, env);
            && other in s.registry
            && !GuildConnectionOpen(trace + s.actions, guildOf, guildOf(other))
            && Conns(trace + s.actions, other) == Conns(trace, other)
  {
    var s := AfterStopJs(reg, vc, result, env);
    var closed := trace + [RecordingStopped(vc.id, result), Disconnected(vc.id)];
    var post := if ShareLink(result).Some? then PostEndJs(reg[vc.id].textChannel, ShareLink(result).value, env).sent else [];
    assert s.actions == [RecordingStopped(vc.id, result), Disconnected(vc.id)] + post;
    assert trace + s.actions == closed + post;
    assert closed[..|closed| - 1] == trace + [RecordingStopped(vc.id, result)];
    assert !GuildConnectionOpen(closed, guildOf, guildOf(other));
    QuietKeepsGuildConnection(closed, post, guildOf, guildOf(other));
    QuietActions(post, other);
    ConnsAppend(trace, [RecordingStopped(vc.id, result), Disconnected(vc.id)], other);
    assert [RecordingStopped(vc.id, result), Disconnected(vc.id)] == [RecordingStopped(vc.id, result)] + [Disconnected(vc.id)];
    ConnsAppend([RecordingStopped(vc.id, result)], [Disconnected(vc.id)], other);
    ConnsOne(RecordingStopped(vc.id, result), other);
    ConnsOne(Disconnected(vc.id), other);
    ConnsAppend(closed, post, other);
  }

  // ---------------------------------------------------------------------
  // Runs

  datatype Event = Event(update: Update, env: EnvJs)

  predicate ValidEvents(es: seq<Event>) {
    forall i :: 0 <= i < |es| ==> ValidEnv(es[i].env)
  }

  /** One handler invocation. */
  function StepJs(reg: Registry, e: Event): Step<RecorderJs.SessionJs>
    requires ValidEnv(e.env)
  {
    UpdateJs(reg, e.update, e.env)
  }

  /** The registry and the actions after a sequence of invocations. */
  function RunJs(reg: Registry, es: seq<Event>): (Registry, seq<Action>)
    requires ValidEvents(es)
  {
    Run(StepJs, reg, es)
  }

  /** From an empty registry, every registered channel has a voice
      connection that the actions opened and did not close. */
  lemma RegisteredAreConnected(es: seq<Event>, c: ChannelId)
    requires ValidEvents(es)
    requires c in RunJs(map[], es).0
    ensures Conns(RunJs(map[], es).1, c) >= 1
  {
    forall r: Registry, i | 0 <= i < |es|
      ensures StepCovers(r.Keys, StepJs(r, es[i]).registry.Keys, StepJs(r, es[i]).actions)
    {
      UpdateCoversJs(r, es[i].update, es[i].env);
    }
    EmptyCovered();
    RunCovered(StepJs, map[], [], es);
    assert [] + RunJs(map[], es).1 == RunJs(map[], es).1;
  }
}
