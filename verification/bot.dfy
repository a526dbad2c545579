/** What the two voice-state handlers (bot.py, bot.js) share: the registry
    entry, the externally visible actions a handler invocation performs,
    the share-link message, and the bookkeeping that relates the registry
    to the voice connections the actions open and close. */
module Bot {
  import opened Wrappers
  import opened Channels
  import opened Strings
  import opened Recording

  /** A registry entry: the recorder's session and the text channel the
      start message went to (`active_recordings[channel.id]` /
      `activeRecordings.get(channel.id)`; the voice client or connection is
      the one the handler opened for that channel). */
  datatype Entry<S> = Entry(session: S, textChannel: Channel)

  /** What a handler invocation does that can be seen from outside. */
  datatype Action =
    | Sent(channel: ChannelId, text: string)
    | Connected(voice: ChannelId)
    | RecordingStarted(voice: ChannelId)
    | RecordingStopped(voice: ChannelId, result: Option<Outcome>)
    | Disconnected(voice: ChannelId)

  /** The registry after one check (join or leave) or one whole invocation,
      the actions performed, and whether an exception ended the handler. */
  datatype Step<S> = Step(registry: map<ChannelId, Entry<S>>, actions: seq<Action>, raised: bool)

  const LinkPlaceholder: string := "{link}"

  /** The join check's condition on the channel joined. */
  predicate JoinWanted<S>(registry: map<ChannelId, Entry<S>>, vc: VoiceChannel) {
    NonBotCount(vc.members) >= 2 && vc.id !in registry
  }

  /** The leave check's condition on the channel left. */
  predicate LeaveWanted<S>(registry: map<ChannelId, Entry<S>>, vc: VoiceChannel) {
    NonBotCount(vc.members) == 0 && vc.id in registry
  }

  /** The join check once its text channel `tc` is found: send `message`
      there, connect to `vc`, start the recording (whose session is
      `started` when the start succeeds) and register, in that order; the
      first failure raises with the registry unchanged. */
  function StartIn<S>(registry: map<ChannelId, Entry<S>>, vc: VoiceChannel, tc: Channel, message: string,
                      sendOk: bool, connectOk: bool, started: Option<S>): (s: Step<S>)
    requires vc.id !in registry
    ensures s.raised <==> !(sendOk && connectOk && started.Some?)
    ensures s.raised ==> s.registry == registry
    ensures !s.raised ==>
              && s.registry.Keys == registry.Keys + {vc.id}
              && (forall c :: c in registry ==> s.registry[c] == registry[c])
              && s.registry[vc.id].textChannel == tc
              && Some(s.registry[vc.id].session) == started
              && s.actions == [Sent(tc.id, message), Connected(vc.id), RecordingStarted(vc.id)]
  {
    if !sendOk then Step(registry, [], true)
    else
      var sent := [Sent(tc.id, message)];
      if !connectOk then
        Step(registry, sent, true)
      else
        match started
        case None =>
          Step(registry, sent + [Connected(vc.id)], true)
        case Some(session) =>
          Step(registry[vc.id := Entry(session, tc)], sent + [Connected(vc.id)] + [RecordingStarted(vc.id)], false)
  }

  /** The messages that reached a text channel and whether a send raised. */
  datatype Posted = Posted(sent: seq<Action>, raised: bool)

  /** The leave check's two sends once the result has a link: the end
      message, then the share message; the first send that fails raises,
      and the messages before it stay posted. */
  function PostEnd(tc: ChannelId, endText: string, shareText: string, endOk: bool, shareOk: bool): (p: Posted)
    ensures p.raised <==> !(endOk && shareOk)
    ensures |p.sent| <= 2 && NoConnectionChange(p.sent)
    ensures |p.sent| >= 1 <==> endOk
    ensures |p.sent| == 2 <==> endOk && shareOk
    ensures |p.sent| >= 1 ==> p.sent[0] == Sent(tc, endText)
    ensures |p.sent| == 2 ==> p.sent[1] == Sent(tc, shareText)
  {
    if !endOk then Posted([], true)
    else if !shareOk then Posted([Sent(tc, endText)], true)
    else Posted([Sent(tc, endText), Sent(tc, shareText)], false)
  }

  /** bot.py: `shareLink.replace('{link}', link)` rewrites every
      occurrence: the template is cut at its placeholders and the pieces are
      joined with the link. */
  function ShareTextPy(template: string, link: string): (t: string)
    ensures !Contains(template, LinkPlaceholder) ==> t == template
    ensures |t| == |template| + Count(template, LinkPlaceholder) * (|link| - |LinkPlaceholder|)
    ensures t == JoinWith(Pieces(template, LinkPlaceholder), link)
  {
    ReplaceAllJoinsPieces(template, LinkPlaceholder, link);
    ReplaceAll(template, LinkPlaceholder, link)
  }

  /** bot.js: `shareLink.replace('{link}', link)` with a string pattern
      rewrites only the first occurrence, and expands the `$` patterns of the
      link. */
  function ShareTextJs(template: string, link: string): (t: string)
    ensures !Contains(template, LinkPlaceholder) ==> t == template
    ensures forall i :: FirstOccurrence(template, LinkPlaceholder, i) ==>
              var after := Suffix(template, i + |LinkPlaceholder|);
              t == template[..i] + Substitute(link, LinkPlaceholder, template[..i], after) + after
    ensures '$' !in link ==> t == ReplaceFirst(template, LinkPlaceholder, link)
  {
    ReplaceFirstJs(template, LinkPlaceholder, link)
  }

  /** With the placeholder at most once and no `$` in the link the two
      messages agree. */
  lemma ShareTextsAgree(template: string, link: string)
    requires Count(template, LinkPlaceholder) <= 1 && '$' !in link
    ensures ShareTextPy(template, link) == ShareTextJs(template, link)
  {
    ReplaceAllAgreesWithFirst(template, LinkPlaceholder, link);
  }

  /** With the placeholder twice or more, the JavaScript message still shows
      a literal `{link}`, and for a link without `$` that is not six
      characters long the two messages differ. */
  lemma ShareTextsDiverge(template: string, link: string)
    requires Count(template, LinkPlaceholder) >= 2
    ensures Contains(ShareTextJs(template, link), LinkPlaceholder)
    ensures '$' !in link && |link| != |LinkPlaceholder| ==>
              ShareTextPy(template, link) != ShareTextJs(template, link)
  {
    ReplaceFirstJsLeavesPattern(template, LinkPlaceholder, link);
    if '$' !in link && |link| != |LinkPlaceholder| {
      ReplaceAllDiffersFromFirst(template, LinkPlaceholder, link);
    }
  }

  /** A link holding `$&` differs even with the placeholder once: JavaScript
      puts the matched `{link}` back, Python inserts the link as it is. */
  lemma DollarLinkDiverges()
    ensures ShareTextJs(LinkPlaceholder, "$&") == LinkPlaceholder
    ensures ShareTextPy(LinkPlaceholder, "$&") == "$&"
  {
    WholeMatchReplaced(LinkPlaceholder, "$&");
  }

  // ---------------------------------------------------------------------
  // Voice connections

  /** How an action changes the number of open connections to `c`. */
  function Delta(a: Action, c: ChannelId): int {
    match a
    case Connected(v) => if v == c then 1 else 0
    case Disconnected(v) => if v == c then -1 else 0
    case _ => 0
  }

  /** Connections to `c` opened minus those closed along `trace`. */
  function Conns(trace: seq<Action>, c: ChannelId): int
    decreases |trace|
  {
    if |trace| == 0 then 0 else Conns(trace[..|trace| - 1], c) + Delta(trace[|trace| - 1], c)
  }

  lemma {:induction false} ConnsAppend(a: seq<Action>, b: seq<Action>, c: ChannelId)
    ensures Conns(a + b, c) == Conns(a, c) + Conns(b, c)
    decreases |b|
  {
    if |b| == 0 {
      assert a + b == a;
    } else {
      var b' := b[..|b| - 1];
      assert (a + b)[..|a + b| - 1] == a + b';
      ConnsAppend(a, b', c);
    }
  }

  lemma ConnsOne(a: Action, c: ChannelId)
    ensures Conns([a], c) == Delta(a, c)
  {
    assert [a][..0] == [];
  }

  /** Every registered channel has a connection still open. */
  ghost predicate Covered(keys: set<ChannelId>, trace: seq<Action>) {
    forall c :: Conns(trace, c) >= (if c in keys then 1 else 0)
  }

  /** A step's actions open a connection for every channel it registers and
      close at most one for every channel it unregisters, and no other. */
  ghost predicate StepCovers(before: set<ChannelId>, after: set<ChannelId>, actions: seq<Action>) {
    forall c :: Conns(actions, c) >= (if c in after then 1 else 0) - (if c in before then 1 else 0)
  }

  lemma CoveredAfter(keys: set<ChannelId>, trace: seq<Action>, keys': set<ChannelId>, actions: seq<Action>)
    requires Covered(keys, trace) && StepCovers(keys, keys', actions)
    ensures Covered(keys', trace + actions)
  {
    forall c
      ensures Conns(trace + actions, c) >= (if c in keys' then 1 else 0)
    {
      ConnsAppend(trace, actions, c);
    }
  }

  lemma StepCoversCompose(k0: set<ChannelId>, k1: set<ChannelId>, k2: set<ChannelId>, a: seq<Action>, b: seq<Action>)
    requires StepCovers(k0, k1, a) && StepCovers(k1, k2, b)
    ensures StepCovers(k0, k2, a + b)
  {
    forall c
      ensures Conns(a + b, c) >= (if c in k2 then 1 else 0) - (if c in k0 then 1 else 0)
    {
      ConnsAppend(a, b, c);
    }
  }

  /** Actions that neither connect nor disconnect. */
  predicate NoConnectionChange(actions: seq<Action>) {
    forall i :: 0 <= i < |actions| ==> !actions[i].Connected? && !actions[i].Disconnected?
  }

  lemma {:induction false} QuietActions(actions: seq<Action>, c: ChannelId)
    requires NoConnectionChange(actions)
    ensures Conns(actions, c) == 0
    decreases |actions|
  {
    if |actions| > 0 {
      QuietActions(actions[..|actions| - 1], c);
    }
  }

  /** A step that leaves the registry as it is and connects nowhere. */
  lemma QuietStepCovers(keys: set<ChannelId>, actions: seq<Action>)
    requires NoConnectionChange(actions)
    ensures StepCovers(keys, keys, actions)
  {
    forall c
      ensures Conns(actions, c) >= (if c in keys then 1 else 0) - (if c in keys then 1 else 0)
    {
      QuietActions(actions, c);
    }
  }

  /** A step that registers `v` after opening a connection to it. */
  lemma JoinStepCovers(keys: set<ChannelId>, v: ChannelId, pre: seq<Action>, post: seq<Action>)
    requires NoConnectionChange(pre) && NoConnectionChange(post)
    ensures StepCovers(keys, keys + {v}, pre + [Connected(v)] + post)
  {
    forall c
      ensures Conns(pre + [Connected(v)] + post, c) >= (if c in keys + {v} then 1 else 0) - (if c in keys then 1 else 0)
    {
      ConnsAppend(pre + [Connected(v)], post, c);
      ConnsAppend(pre, [Connected(v)], c);
      ConnsOne(Connected(v), c);
      QuietActions(pre, c);
      QuietActions(post, c);
    }
  }

  /** The calls after the text channel is found cover what they register. */
  lemma StartInCovers<S>(registry: map<ChannelId, Entry<S>>, vc: VoiceChannel, tc: Channel, message: string,
                         sendOk: bool, connectOk: bool, started: Option<S>)
    requires vc.id !in registry
    ensures var s := StartIn(registry, vc, tc, message, sendOk, connectOk, started);
            StepCovers(registry.Keys, s.registry.Keys, s.actions)
  {
    var sent := [Sent(tc.id, message)];
    if !sendOk {
      QuietStepCovers(registry.Keys, []);
    } else if !connectOk {
      QuietStepCovers(registry.Keys, sent);
    } else if started.None? {
      ConnectOnlyStepCovers(registry.Keys, vc.id, sent);
    } else {
      JoinStepCovers(registry.Keys, vc.id, sent, [RecordingStarted(vc.id)]);
    }
  }

  /** A step that opens a connection to `v` and registers nothing. */
  lemma ConnectOnlyStepCovers(keys: set<ChannelId>, v: ChannelId, pre: seq<Action>)
    requires NoConnectionChange(pre)
    ensures StepCovers(keys, keys, pre + [Connected(v)])
  {
    forall c
      ensures Conns(pre + [Connected(v)], c) >= 0
    {
      ConnsAppend(pre, [Connected(v)], c);
      ConnsOne(Connected(v), c);
      QuietActions(pre, c);
    }
  }

  /** A step that unregisters `v` after closing its connection. */
  lemma LeaveStepCovers(keys: set<ChannelId>, v: ChannelId, pre: seq<Action>, post: seq<Action>)
    requires v in keys
    requires NoConnectionChange(pre) && NoConnectionChange(post)
    ensures StepCovers(keys, keys - {v}, pre + [Disconnected(v)] + post)
  {
    forall c
      ensures Conns(pre + [Disconnected(v)] + post, c) >= (if c in keys - {v} then 1 else 0) - (if c in keys then 1 else 0)
    {
      ConnsAppend(pre + [Disconnected(v)], post, c);
      ConnsAppend(pre, [Disconnected(v)], c);
      ConnsOne(Disconnected(v), c);
      QuietActions(pre, c);
      QuietActions(post, c);
    }
  }

  // ---------------------------------------------------------------------
  // Runs

  /** The registry and the actions after a sequence of handler
      invocations, each run to completion before the next starts; `step`
      is one invocation of the language's handler. */
  function Run<S(!new), E>(step: (map<ChannelId, Entry<S>>, E) --> Step<S>, reg: map<ChannelId, Entry<S>>, es: seq<E>)
    : (map<ChannelId, Entry<S>>, seq<Action>)
    requires forall r: map<ChannelId, Entry<S>>, i :: 0 <= i < |es| ==> step.requires(r, es[i])
    decreases |es|
  {
    if |es| == 0 then (reg, [])
    else
      var s := step(reg, es[0]);
      var rest := Run(step, s.registry, es[1..]);
      (rest.0, s.actions + rest.1)
  }

  lemma EmptyCovered()
    ensures Covered({}, [])
  {
  }

  /** If every invocation opens a connection for what it registers, then
      along a run every registered channel keeps a connection open. */
  lemma {:induction false} RunCovered<S(!new), E>(step: (map<ChannelId, Entry<S>>, E) --> Step<S>,
                                                   reg: map<ChannelId, Entry<S>>, trace: seq<Action>, es: seq<E>)
    requires forall r: map<ChannelId, Entry<S>>, i :: 0 <= i < |es| ==> step.requires(r, es[i])
    requires forall r: map<ChannelId, Entry<S>>, i :: 0 <= i < |es| ==>
               StepCovers(r.Keys, step(r, es[i]).registry.Keys, step(r, es[i]).actions)
    requires Covered(reg.Keys, trace)
    ensures Covered(Run(step, reg, es).0.Keys, trace + Run(step, reg, es).1)
    decreases |es|
  {
    if |es| > 0 {
      var s := step(reg, es[0]);
      var rest := Run(step, s.registry, es[1..]);
      CoveredAfter(reg.Keys, trace, s.registry.Keys, s.actions);
      assert forall i :: 0 <= i < |es| - 1 ==> es[1..][i] == es[i + 1];
      RunCovered(step, s.registry, trace + s.actions, es[1..]);
      ActionsAssoc(trace, s.actions, rest.1);
    } else {
      assert trace + [] == trace;
    }
  }

  lemma ActionsAssoc(a: seq<Action>, b: seq<Action>, c: seq<Action>)
    ensures a + b + c == a + (b + c)
  {
  }
}
