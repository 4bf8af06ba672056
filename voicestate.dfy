/**
 * src/events/voiceStateUpdate.js: decides, from a member's old and new voice
 * state, whether the bot joins the 'GiGi' channel or leaves it. A state whose
 * `channelId` is set is modelled with its channel; a state outside any
 * channel has none.
 */
module VoiceTrigger {
  import opened Wrappers

  datatype Member = Member(tag: string, bot: bool)

  /** A voice channel with its current members. */
  datatype VoiceChannel = VoiceChannel(id: string, name: string, guildId: string, members: seq<Member>)

  /** What the event asks of the voice service: a channel to join, a guild to leave. */
  datatype Requests = Requests(join: Option<VoiceChannel>, leave: Option<string>)

  const ChannelName := "GiGi"

  /** `channel.members.filter(member => !member.user.bot)` */
  function Humans(members: seq<Member>): (h: seq<Member>)
    ensures forall m :: m in h <==> m in members && !m.bot
    ensures |h| <= |members|
  {
    if |members| == 0 then []
    else (if members[0].bot then [] else [members[0]]) + Humans(members[1..])
  }

  /** `execute(oldState, newState)`; `isBot` is whether the member is a bot. */
  function Decide(isBot: bool, before: Option<VoiceChannel>, after: Option<VoiceChannel>): (r: Requests)
    ensures r.join.Some? ==> !isBot && before.None? && r.join == after && after.value.name == ChannelName
    ensures r.leave.Some? ==> !isBot && before.Some? && before.value.name == ChannelName && r.leave == Some(before.value.guildId)
    ensures !isBot && before.None? && after.Some? && after.value.name == ChannelName ==> r.join.Some?
  {
    if isBot then Requests(None, None)
    else
      var join := if before.None? && after.Some? && after.value.name == ChannelName then after else None;
      var leave :=
        if before.Some? && before.value.name == ChannelName && |Humans(before.value.members)| == 0
        then Some(before.value.guildId) else None;
      Requests(join, leave)
  }

  /** The bot's own updates request nothing. */
  lemma BotIgnored(before: Option<VoiceChannel>, after: Option<VoiceChannel>)
    ensures Decide(true, before, after) == Requests(None, None)
  {
  }

  /** A join is requested exactly when a human enters a channel named exactly 'GiGi' from no channel. */
  lemma JoinIff(before: Option<VoiceChannel>, after: Option<VoiceChannel>)
    ensures Decide(false, before, after).join.Some? <==> before.None? && after.Some? && after.value.name == "GiGi"
    ensures Decide(false, before, after).join.Some? ==> Decide(false, before, after).join == after
  {
  }

  /** Moving into 'GiGi' from another channel is not a join: only entering from no channel is. */
  lemma MoveIntoChannelDoesNotJoin(from: VoiceChannel, to: VoiceChannel)
    requires to.name == "GiGi"
    ensures Decide(false, Some(from), Some(to)).join.None?
  {
  }

  /** The name test is exact: a channel called 'gigi' is not the bot's channel. */
  lemma NameIsCaseSensitive(to: VoiceChannel)
    requires to.name == "gigi"
    ensures Decide(false, None, Some(to)).join.None?
  {
  }

  /** A leave of the old channel's guild is requested exactly when a 'GiGi' channel was left with no human in it. */
  lemma {:induction false} LeaveIffNoHumans(before: Option<VoiceChannel>, after: Option<VoiceChannel>)
    ensures Decide(false, before, after).leave.Some? <==>
              before.Some? && before.value.name == "GiGi" && forall i :: 0 <= i < |before.value.members| ==> before.value.members[i].bot
    ensures Decide(false, before, after).leave.Some? ==> Decide(false, before, after).leave == Some(before.value.guildId)
  {
    if before.Some? {
      var ms := before.value.members;
      if |Humans(ms)| > 0 {
        assert Humans(ms)[0] in Humans(ms);
      }
    }
  }

  /** One update never asks for both a join and a leave: a join needs no old channel, a leave needs one. */
  lemma NeverBoth(isBot: bool, before: Option<VoiceChannel>, after: Option<VoiceChannel>)
    ensures !(Decide(isBot, before, after).join.Some? && Decide(isBot, before, after).leave.Some?)
  {
  }
}
