/** bot.py: `on_voice_state_update`, one invocation at a time. The
    registry is `active_recordings`; every `await` the handler makes is
    answered by the environment. */
module BotPy {
  import opened Wrappers
  import opened Channels
  import opened Timestamps
  import opened Config
  import opened Recording
  import opened Bot
  import RecorderPy

  type Registry = map<ChannelId, Entry<RecorderPy.SessionPy>>

  /** A voice-state update: whether the member is a bot, and the voice
      channel before and after (None when not in one). */
  datatype Update = Update(memberIsBot: bool, before: Option<VoiceChannel>, after: Option<VoiceChannel>)

  /** The answers to the handler's calls: `config.json` as read, the text
      channels whose `send` of the start message raises, whether
      `channel.connect()` succeeds, the clocks and outcome of
      `start_recording`, the clocks and environment of `stop_recording`,
      whether `disconnect()` succeeds, and whether the `send` of the end
      message and of the share message succeed. */
  datatype EnvPy = EnvPy(
    config: Config,
    failingSends: set<ChannelId>,
    connectOk: bool,
    now: DateTime,
    startMicros: int,
    startOk: bool,
    nowMicros: int,
    wall: DateTime,
    stop: RecorderPy.StopEnvPy,
    disconnectOk: bool,
    endSendOk: bool,
    shareSendOk: bool)

  predicate ValidEnv(env: EnvPy) {
    Valid(env.now) && Valid(env.wall)
  }

  /** `before.channel == after.channel`: both absent, or the same channel. */
  predicate SameChannel(before: Option<VoiceChannel>, after: Option<VoiceChannel>) {
    match (before, after)
    case (None, None) => true
    case (Some(b), Some(a)) => b.id == a.id
    case _ => false
  }

  /** Every call the join check makes on `vc` succeeds: a text channel is
      found and accepts the message, the connection opens and the recording
      starts. */
  predicate JoinCallsSucceed(vc: VoiceChannel, env: EnvPy) {
    && ResolveTextChannel(vc).Some?
    && ResolveTextChannel(vc).value.id !in env.failingSends
    && env.connectOk
    && env.startOk
  }

  /** The join check on `vc` runs its calls and one of them raises. */
  predicate JoinRaises(reg: Registry, vc: VoiceChannel, env: EnvPy) {
    JoinWanted(reg, vc) && ResolveTextChannel(vc).Some? && !JoinCallsSucceed(vc, env)
  }

  /** The join check on `vc`: with two or more non-bot members, no entry
      and a related text channel, send the start message, connect, start
      recording and register. A raise at any of the three calls ends the
      handler with the registry unchanged. */
  function JoinPy(reg: Registry, vc: VoiceChannel, env: EnvPy): (s: Step<RecorderPy.SessionPy>)
    requires ValidEnv(env)
    ensures s.registry.Keys <= reg.Keys + {vc.id}
    ensures forall c :: c in reg ==> c in s.registry && s.registry[c] == reg[c]
    ensures vc.id in s.registry && vc.id !in reg <==>
              && JoinWanted(reg, vc)
              && ResolveTextChannel(vc).Some?
              && ResolveTextChannel(vc).value.id !in env.failingSends
              && env.connectOk
              && env.startOk
    ensures vc.id in s.registry && vc.id !in reg ==>
              && s.registry[vc.id].textChannel == ResolveTextChannel(vc).value
              && Some(s.registry[vc.id].session) ==
                   RecorderPy.StartRecording(env.config, env.now, env.startMicros, vc.name, true)
              && s.actions == [Sent(ResolveTextChannel(vc).value.id, env.config.messageTemplates.recordingStart),
                               Connected(vc.id), RecordingStarted(vc.id)]
    ensures s.raised ==> JoinWanted(reg, vc) && ResolveTextChannel(vc).Some? && s.registry == reg
    ensures s.raised <==> JoinRaises(reg, vc, env)
    ensures !JoinWanted(reg, vc) || ResolveTextChannel(vc).None? ==> s == Step(reg, [], false)
  {
    if !JoinWanted(reg, vc) then
      Step(reg, [], false)
    else
      match ResolveTextChannel(vc)
      case None => Step(reg, [], false)
      case Some(tc) =>
        StartIn(reg, vc, tc, env.config.messageTemplates.recordingStart, tc.id !in env.failingSends, env.connectOk,
                RecorderPy.StartRecording(env.config, env.now, env.startMicros, vc.name, env.startOk))
  }

  /** What `stop_recording` returns for the entry's session. */
  function StopResult(e: Entry<RecorderPy.SessionPy>, vc: VoiceChannel, env: EnvPy): Option<Outcome>
    requires ValidEnv(env)
  {
    RecorderPy.StopRecording(e.session, vc.name, env.config, env.nowMicros, env.wall, env.stop).result
  }

  /** What the leave check does once `stop_recording` has returned
      `result` for the entry of `vc`: disconnect (a failure raises before
      the entry is removed), unregister, and post the end and share
      messages when the result has a link. */
  function AfterStopPy(reg: Registry, vc: VoiceChannel, result: Option<Outcome>, env: EnvPy): (s: Step<RecorderPy.SessionPy>)
    requires vc.id in reg
    ensures |s.actions| >= 1 && s.actions[0] == RecordingStopped(vc.id, result)
    ensures s.registry == if env.disconnectOk then reg - {vc.id} else reg
    ensures env.disconnectOk ==> |s.actions| >= 2 && s.actions[1] == Disconnected(vc.id)
    ensures s.raised <==> !env.disconnectOk || (ShareLink(result).Some? && !(env.endSendOk && env.shareSendOk))
  {
    var stopped := [RecordingStopped(vc.id, result)];
    if !env.disconnectOk then
      Step(reg, stopped, true)
    else
      var reg' := reg - {vc.id};
      match ShareLink(result)
      case None =>
        Step(reg', stopped + [Disconnected(vc.id)], false)
      case Some(link) =>
        var p := PostEndPy(reg[vc.id].textChannel, link, env);
        Step(reg', stopped + [Disconnected(vc.id)] + p.sent, p.raised)
  }

  /** The end and share messages of bot.py for a result with `link`. */
  function PostEndPy(tc: Channel, link: string, env: EnvPy): (p: Posted)
    ensures p.raised <==> !(env.endSendOk && env.shareSendOk)
    ensures |p.sent| <= 2 && NoConnectionChange(p.sent)
  {
    PostEnd(tc.id, env.config.messageTemplates.recordingEnd,
            ShareTextPy(env.config.messageTemplates.shareLink, link), env.endSendOk, env.shareSendOk)
  }

  /** After a stop, the end message goes to the entry's text channel
      exactly when the disconnect succeeded, the result has a link and that
      send succeeds; the share message, with every `{link}` replaced by the
      link, follows exactly when its own send succeeds too. A failed share
      send leaves the end message posted and raises. */
  lemma AfterStopMessagesPy(reg: Registry, vc: VoiceChannel, result: Option<Outcome>, env: EnvPy)
    requires vc.id in reg
    ensures var s := AfterStopPy(reg, vc, result, env);
            var tc := reg[vc.id].textChannel;
            var posting := env.disconnectOk && ShareLink(result).Some?;
            && |s.actions| <= 4
            && (|s.actions| >= 3 <==> posting && env.endSendOk)
            && (|s.actions| >= 3 ==> s.actions[2] == Sent(tc.id, env.config.messageTemplates.recordingEnd))
            && (|s.actions| == 4 <==> posting && env.endSendOk && env.shareSendOk)
            && (|s.actions| == 4 ==>
                  s.actions[3] == Sent(tc.id, ShareTextPy(env.config.messageTemplates.shareLink, ShareLink(result).value)))
            && (|s.actions| == 3 ==> s.raised)
  {
  }

  /** The leave check on `vc`: with no non-bot member left and an entry,
      stop the recording and go on as `AfterStopPy`. */
  function LeavePy(reg: Registry, vc: VoiceChannel, env: EnvPy): (s: Step<RecorderPy.SessionPy>)
    requires ValidEnv(env)
    ensures !LeaveWanted(reg, vc) ==> s == Step(reg, [], false)
    ensures s.registry == reg || s.registry == reg - {vc.id}
    ensures vc.id !in s.registry <==> vc.id !in reg || (NonBotCount(vc.members) == 0 && env.disconnectOk)
    ensures LeaveWanted(reg, vc) ==>
              |s.actions| >= 1 && s.actions[0] == RecordingStopped(vc.id, StopResult(reg[vc.id], vc, env))
  {
    if !LeaveWanted(reg, vc) then Step(reg, [], false)
    else AfterStopPy(reg, vc, StopResult(reg[vc.id], vc, env), env)
  }

  /** `on_voice_state_update(member, before, after)`: ignored for the same
      channel or a bot member; otherwise the join check on `after`, then,
      unless it raised, the leave check on `before`. */
  function UpdatePy(reg: Registry, u: Update, env: EnvPy): (s: Step<RecorderPy.SessionPy>)
    requires ValidEnv(env)
    ensures SameChannel(u.before, u.after) || u.memberIsBot ==> s == Step(reg, [], false)
    ensures forall c :: c in reg && c !in s.registry ==> u.before.Some? && c == u.before.value.id
    ensures forall c :: c in s.registry && c !in reg ==> u.after.Some? && c == u.after.value.id
    ensures forall c :: c in reg && c in s.registry ==> s.registry[c] == reg[c]
  {
    if SameChannel(u.before, u.after) || u.memberIsBot then
      Step(reg, [], false)
    else
      var j := if u.after.Some? then JoinPy(reg, u.after.value, env) else Step(reg, [], false);
      if j.raised || u.before.None? then j
      else
        var l := LeavePy(j.registry, u.before.value, env);
        Step(l.registry, j.actions + l.actions, l.raised)
  }

  /** A move from one channel to another runs the join check on the new
      channel and then the leave check on the old one, against the registry
      the join left; a join that raised skips the leave check. */
  lemma JoinThenLeave(reg: Registry, u: Update, env: EnvPy)
    requires ValidEnv(env)
    requires !u.memberIsBot && u.before.Some? && u.after.Some? && u.before.value.id != u.after.value.id
    ensures var j := JoinPy(reg, u.after.value, env);
            var l := LeavePy(j.registry, u.before.value, env);
            UpdatePy(reg, u, env) == if j.raised then j else Step(l.registry, j.actions + l.actions, l.raised)
  {
  }

  /** The channel joined gains an entry exactly when the update is not
      ignored, the join check wants the channel and all its calls
      succeed: the leave check that follows never removes it. */
  lemma UpdateRegistersPy(reg: Registry, u: Update, env: EnvPy)
    requires ValidEnv(env)
    ensures u.after.Some? ==>
              var a := u.after.value;
              var s := UpdatePy(reg, u, env);
              (a.id in s.registry && a.id !in reg <==>
                 !u.memberIsBot && !SameChannel(u.before, u.after) && JoinWanted(reg, a) && JoinCallsSucceed(a, env))
  {
    if u.after.Some? && !u.memberIsBot && !SameChannel(u.before, u.after) {
      var a := u.after.value;
      var j := JoinPy(reg, a, env);
      if !j.raised && u.before.Some? {
        var l := LeavePy(j.registry, u.before.value, env);
        assert u.before.value.id != a.id;
        assert UpdatePy(reg, u, env).registry == l.registry;
      } else {
        assert UpdatePy(reg, u, env).registry == j.registry;
      }
    }
  }

  /** The channel left loses its entry exactly when the update is not
      ignored, the join check did not raise, no non-bot member is left and
      the disconnect succeeds. */
  lemma UpdateUnregistersPy(reg: Registry, u: Update, env: EnvPy)
    requires ValidEnv(env)
    ensures u.before.Some? && u.before.value.id in reg ==>
              var b := u.before.value;
              var s := UpdatePy(reg, u, env);
              (b.id !in s.registry <==>
                 && !u.memberIsBot && !SameChannel(u.before, u.after)
                 && !(u.after.Some? && JoinRaises(reg, u.after.value, env))
                 && NonBotCount(b.members) == 0 && env.disconnectOk)
  {
    if u.before.Some? && u.before.value.id in reg && !u.memberIsBot && !SameChannel(u.before, u.after) {
      var b := u.before.value;
      var j := if u.after.Some? then JoinPy(reg, u.after.value, env) else Step(reg, [], false);
      assert j.raised <==> u.after.Some? && JoinRaises(reg, u.after.value, env);
      if !j.raised {
        var l := LeavePy(j.registry, b, env);
        assert b.id in j.registry;
        assert UpdatePy(reg, u, env).registry == l.registry;
      } else {
        assert UpdatePy(reg, u, env).registry == reg;
      }
    }
  }

  /** A channel that already has an entry keeps it through a join: there is
      never more than one recording per channel. */
  lemma JoinNeverReplaces(reg: Registry, vc: VoiceChannel, env: EnvPy)
    requires ValidEnv(env) && vc.id in reg
    ensures JoinPy(reg, vc, env) == Step(reg, [], false)
  {
  }

  /** A failed disconnect leaves an entry whose recording has already been
      stopped; the next leave check on an empty channel stops it again. */
  lemma FailedDisconnectKeepsEntry(reg: Registry, vc: VoiceChannel, env: EnvPy)
    requires ValidEnv(env) && LeaveWanted(reg, vc) && !env.disconnectOk
    ensures var s := LeavePy(reg, vc, env);
            s.registry == reg && s.raised && s.actions == [RecordingStopped(vc.id, StopResult(reg[vc.id], vc, env))]
  {
  }

  // ---------------------------------------------------------------------
  // Voice connections

  /** A join opens a connection for the channel it registers. */
  lemma JoinCoversPy(reg: Registry, vc: VoiceChannel, env: EnvPy)
    requires ValidEnv(env)
    ensures var s := JoinPy(reg, vc, env);
            StepCovers(reg.Keys, s.registry.Keys, s.actions)
  {
    if !JoinWanted(reg, vc) || ResolveTextChannel(vc).None? {
      QuietStepCovers(reg.Keys, []);
    } else {
      var tc := ResolveTextChannel(vc).value;
      StartInCovers(reg, vc, tc, env.config.messageTemplates.recordingStart, tc.id !in env.failingSends, env.connectOk,
        RecorderPy.StartRecording(env.config, env.now, env.startMicros, vc.name, env.startOk));
    }
  }

  /** Closing the connection before unregistering. */
  lemma AfterStopCoversPy(reg: Registry, vc: VoiceChannel, result: Option<Outcome>, env: EnvPy)
    requires vc.id in reg
    ensures var s := AfterStopPy(reg, vc, result, env);
            StepCovers(reg.Keys, s.registry.Keys, s.actions)
  {
    var s := AfterStopPy(reg, vc, result, env);
    var stopped := [RecordingStopped(vc.id, result)];
    if !env.disconnectOk {
      QuietStepCovers(reg.Keys, stopped);
    } else {
      var link := ShareLink(result);
      var post := if link.Some? then PostEndPy(reg[vc.id].textChannel, link.value, env).sent else [];
      assert s.actions == stopped + [Disconnected(vc.id)] + post;
      assert s.registry.Keys == reg.Keys - {vc.id};
      LeaveStepCovers(reg.Keys, vc.id, stopped, post);
    }
  }

  /** A leave closes the connection of the channel it unregisters. */
  lemma LeaveCoversPy(reg: Registry, vc: VoiceChannel, env: EnvPy)
    requires ValidEnv(env)
    ensures var s := LeavePy(reg, vc, env);
            StepCovers(reg.Keys, s.registry.Keys, s.actions)
  {
    if LeaveWanted(reg, vc) {
      AfterStopCoversPy(reg, vc, StopResult(reg[vc.id], vc, env), env);
    } else {
      QuietStepCovers(reg.Keys, []);
    }
  }

  lemma UpdateCoversPy(reg: Registry, u: Update, env: EnvPy)
    requires ValidEnv(env)
    ensures var s := UpdatePy(reg, u, env);
            StepCovers(reg.Keys, s.registry.Keys, s.actions)
  {
    var s := UpdatePy(reg, u, env);
    if SameChannel(u.before, u.after) || u.memberIsBot {
      QuietStepCovers(reg.Keys, []);
    } else {
      var j := if u.after.Some? then JoinPy(reg, u.after.value, env) else Step(reg, [], false);
      if u.after.Some? {
        JoinCoversPy(reg, u.after.value, env);
      } else {
        QuietStepCovers(reg.Keys, []);
      }
      if j.raised || u.before.None? {
        assert s == j;
      } else {
        var l := LeavePy(j.registry, u.before.value, env);
        assert s == Step(l.registry, j.actions + l.actions, l.raised);
        LeaveCoversPy(j.registry, u.before.value, env);
        StepCoversCompose(reg.Keys, j.registry.Keys, l.registry.Keys, j.actions, l.actions);
      }
    }
  }

  // ---------------------------------------------------------------------
  // Runs

  /** One handler invocation with its environment. */
  datatype Event = Event(update: Update, env: EnvPy)

  predicate ValidEvents(es: seq<Event>) {
    forall i :: 0 <= i < |es| ==> ValidEnv(es[i].env)
  }

  /** One handler invocation. */
  function StepPy(reg: Registry, e: Event): Step<RecorderPy.SessionPy>
    requires ValidEnv(e.env)
  {
    UpdatePy(reg, e.update, e.env)
  }

  /** The registry and the actions after a sequence of invocations. */
  function RunPy(reg: Registry, es: seq<Event>): (Registry, seq<Action>)
    requires ValidEvents(es)
  {
    Run(StepPy, reg, es)
  }

  /** From an empty registry, every registered channel has a voice
      connection that the actions opened and did not close. */
  lemma RegisteredAreConnected(es: seq<Event>, c: ChannelId)
    requires ValidEvents(es)
    requires c in RunPy(map[], es).0
    ensures Conns(RunPy(map[], es).1, c) >= 1
  {
    forall r: Registry, i | 0 <= i < |es|
      ensures StepCovers(r.Keys, StepPy(r, es[i]).registry.Keys, StepPy(r, es[i]).actions)
    {
      UpdateCoversPy(r, es[i].update, es[i].env);
    }
    EmptyCovered();
    RunCovered(StepPy, map[], [], es);
    assert [] + RunPy(map[], es).1 == RunPy(map[], es).1;
  }
}
