/** Guild channels, the voice channel an update refers to, and the
    four-step search for the text channel that recording notices go to
    (`find_related_text_channel` in bot.py, `findRelatedTextChannel` in
    bot.js). */
module Channels {
  import opened Wrappers

  type ChannelId = nat

  /** A guild channel. `isText` stands for `isinstance(c, TextChannel)` on
      the Python side and `c.type === ChannelType.GuildText` on the
      JavaScript side. */
  datatype Channel = Channel(id: ChannelId, name: string, isText: bool)

  /** The guild's channels in cache order, and its system channel if any. */
  datatype Guild = Guild(channels: seq<Channel>, systemChannel: Option<Channel>)

  /** A voice channel: its category's channels when it has a category, and
      one `isBot` flag per connected member. */
  datatype VoiceChannel = VoiceChannel(
    id: ChannelId,
    name: string,
    category: Option<seq<Channel>>,
    members: seq<bool>,
    guild: Guild)

  /** Number of members that are not bots. */
  function NonBotCount(members: seq<bool>): (n: nat)
    ensures n <= |members|
  {
    if |members| == 0 then 0
    else (if members[0] then 0 else 1) + NonBotCount(members[1..])
  }

  /** The count is zero exactly when every member is a bot. */
  lemma {:induction false} NonBotCountZero(members: seq<bool>)
    ensures NonBotCount(members) == 0 <==> forall i :: 0 <= i < |members| ==> members[i]
  {
    if |members| > 0 {
      NonBotCountZero(members[1..]);
      assert forall i :: 1 <= i < |members| ==> members[i] == members[1..][i - 1];
    }
  }

  /** Adding a non-bot member raises the count by one, adding a bot leaves it. */
  lemma {:induction false} NonBotCountAppend(members: seq<bool>, isBot: bool)
    ensures NonBotCount(members + [isBot]) == NonBotCount(members) + (if isBot then 0 else 1)
  {
    if |members| > 0 {
      assert (members + [isBot])[1..] == members[1..] + [isBot];
      NonBotCountAppend(members[1..], isBot);
    }
  }

  // ---------------------------------------------------------------------
  // First-match search

  /** The three tests the search applies, each to text channels only. */
  datatype Criterion =
    | GeneralName         // named `general` or `一般`
    | SameNameAs(name: string)
    | AnyText

  predicate Matches(c: Channel, k: Criterion) {
    c.isText &&
    match k
    case GeneralName => c.name == "general" || c.name == "一般"
    case SameNameAs(n) => c.name == n
    case AnyText => true
  }

  /** `i` is the position of the first channel of `cs` matching `k`. */
  predicate IsFirstMatch(cs: seq<Channel>, k: Criterion, i: int) {
    0 <= i < |cs| && Matches(cs[i], k) && forall j :: 0 <= j < i ==> !Matches(cs[j], k)
  }

  predicate NoMatch(cs: seq<Channel>, k: Criterion) {
    forall j :: 0 <= j < |cs| ==> !Matches(cs[j], k)
  }

  /** Position of the first match, or -1. */
  function FirstMatchIndex(cs: seq<Channel>, k: Criterion): (r: int)
    ensures r >= 0 ==> IsFirstMatch(cs, k, r)
    ensures r < 0 <==> NoMatch(cs, k)
  {
    if |cs| == 0 then -1
    else if Matches(cs[0], k) then 0
    else
      var r := FirstMatchIndex(cs[1..], k);
      if r < 0 then -1 else r + 1
  }

  /** `Array.prototype.find` with the criterion as predicate. */
  function FindFirst(cs: seq<Channel>, k: Criterion): (r: Option<Channel>)
    ensures r.Some? <==> !NoMatch(cs, k)
    ensures r.Some? ==> exists i :: IsFirstMatch(cs, k, i) && r.value == cs[i]
  {
    var i := FirstMatchIndex(cs, k);
    if i < 0 then None else Some(cs[i])
  }

  // ---------------------------------------------------------------------
  // Resolution

  predicate HasGeneralInCategory(vc: VoiceChannel) {
    vc.category.Some? && !NoMatch(vc.category.value, GeneralName)
  }

  /** The related text channel of `vc`: a `general`/`一般` text channel of its
      category, else a text channel of the guild with its name, else the
      guild's system channel, else the guild's first text channel, else none. */
  function ResolveTextChannel(vc: VoiceChannel): (r: Option<Channel>)
    ensures HasGeneralInCategory(vc) ==>
              exists i :: IsFirstMatch(vc.category.value, GeneralName, i) && r == Some(vc.category.value[i])
    ensures !HasGeneralInCategory(vc) && !NoMatch(vc.guild.channels, SameNameAs(vc.name)) ==>
              exists i :: IsFirstMatch(vc.guild.channels, SameNameAs(vc.name), i) && r == Some(vc.guild.channels[i])
    ensures !HasGeneralInCategory(vc) && NoMatch(vc.guild.channels, SameNameAs(vc.name)) && vc.guild.systemChannel.Some? ==>
              r == vc.guild.systemChannel
    ensures !HasGeneralInCategory(vc) && NoMatch(vc.guild.channels, SameNameAs(vc.name)) &&
            vc.guild.systemChannel.None? && !NoMatch(vc.guild.channels, AnyText) ==>
              exists i :: IsFirstMatch(vc.guild.channels, AnyText, i) && r == Some(vc.guild.channels[i])
    ensures r.None? <==> !HasGeneralInCategory(vc) && vc.guild.systemChannel.None? && NoMatch(vc.guild.channels, AnyText)
    ensures r.Some? ==> r.value.isText || r == vc.guild.systemChannel
  {
    var general := if vc.category.Some? then FindFirst(vc.category.value, GeneralName) else None;
    if general.Some? then general
    else
      var sameName := FindFirst(vc.guild.channels, SameNameAs(vc.name));
      if sameName.Some? then sameName
      else if vc.guild.systemChannel.Some? then vc.guild.systemChannel
      else FindFirst(vc.guild.channels, AnyText)
  }

  /** A guild holding any text channel always yields a channel. */
  lemma TextChannelGuaranteesResolution(vc: VoiceChannel, i: nat)
    requires i < |vc.guild.channels| && vc.guild.channels[i].isText
    ensures ResolveTextChannel(vc).Some?
  {
    assert Matches(vc.guild.channels[i], AnyText);
  }

  /** The Python version: the same search written as `for` loops that return
      from inside the loop body. */
  method FindRelatedTextChannelPy(vc: VoiceChannel) returns (r: Option<Channel>)
    ensures r == ResolveTextChannel(vc)
  {
    if vc.category.Some? {
      var cs := vc.category.value;
      var i := 0;
      while i < |cs|
        invariant 0 <= i <= |cs|
        invariant forall j :: 0 <= j < i ==> !Matches(cs[j], GeneralName)
      {
        if cs[i].isText && (cs[i].name == "general" || cs[i].name == "一般") {
          assert IsFirstMatch(cs, GeneralName, i);
          return Some(cs[i]);
        }
        i := i + 1;
      }
    }
    var cs := vc.guild.channels;
    var i := 0;
    while i < |cs|
      invariant 0 <= i <= |cs|
      invariant forall j :: 0 <= j < i ==> !Matches(cs[j], SameNameAs(vc.name))
    {
      if cs[i].isText && cs[i].name == vc.name {
        assert IsFirstMatch(cs, SameNameAs(vc.name), i);
        return Some(cs[i]);
      }
      i := i + 1;
    }
    if vc.guild.systemChannel.Some? {
      return vc.guild.systemChannel;
    }
    i := 0;
    while i < |cs|
      invariant 0 <= i <= |cs|
      invariant forall j :: 0 <= j < i ==> !Matches(cs[j], AnyText)
    {
      if cs[i].isText {
        assert IsFirstMatch(cs, AnyText, i);
        return Some(cs[i]);
      }
      i := i + 1;
    }
    return None;
  }
}
