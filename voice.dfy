/**
 * src/services/voice.js: the bot's voice connections, one per guild. The
 * library calls (`joinVoiceChannel`, `entersState`, `destroy`) are modelled by
 * their effect on a guild-to-connection map; the connection's Ready and
 * Disconnected events are methods, and how the reconnection race ends is a
 * parameter: the time after which Signalling or Connecting was reached, if
 * ever.
 */
module Voice {
  import opened Wrappers
  import opened JsText
  import opened Errors
  import opened Vapi

  /** The parts of a Discord voice channel the service reads. */
  datatype Channel = Channel(id: string, name: string, guildId: string)

  /** The options a connection was joined with. */
  datatype Connection = Connection(channelId: string, guildId: string, selfDeaf: bool, selfMute: bool)

  /** How long a disconnected connection may take to start reconnecting. */
  const GraceMs := 5000

  /** The live connections by guild id, and every connection destroyed so far, in order. */
  datatype VoiceState = VoiceState(connections: map<string, Connection>, destroyed: seq<Connection>)

  datatype JoinStep = JoinStep(result: Result<Connection, Error>, state: VoiceState)

  /** `joinChannel(channel)`: a throwing `joinVoiceChannel` is rethrown; otherwise the guild's connection is the new one. */
  function JoinOutcome(s: VoiceState, channel: Channel, join: Result<(), Error>): (r: JoinStep)
    ensures r.state.destroyed == s.destroyed
    ensures join.Err? ==> r == JoinStep(Err(join.error), s)
    ensures join.Ok? ==>
              r.result.Ok? && channel.guildId in r.state.connections &&
              r.state.connections[channel.guildId] == r.result.value &&
              r.result.value == Connection(channel.id, channel.guildId, false, false)
    ensures forall g :: g != channel.guildId ==> (g in r.state.connections <==> g in s.connections)
  {
    match join
    case Err(e) => JoinStep(Err(e), s)
    case Ok(_) =>
      var connection := Connection(channel.id, channel.guildId, false, false);
      JoinStep(Ok(connection), s.(connections := s.connections[channel.guildId := connection]))
  }

  /** `connection.destroy()` on the guild's live connection. */
  function Destroy(s: VoiceState, guildId: string): (r: VoiceState)
    requires guildId in s.connections
    ensures guildId !in r.connections && r.connections.Keys == s.connections.Keys - {guildId}
    ensures r.destroyed == s.destroyed + [s.connections[guildId]]
  {
    VoiceState(s.connections - {guildId}, s.destroyed + [s.connections[guildId]])
  }

  /**
   * The Disconnected handler: the race of the two `entersState` calls
   * resolves when either state is reached within the grace window; if it
   * rejects, the connection is destroyed.
   */
  function DisconnectOutcome(s: VoiceState, guildId: string, recoveredAfterMs: Option<nat>): (r: VoiceState)
    requires guildId in s.connections
    ensures r == s <==> recoveredAfterMs.Some? && recoveredAfterMs.value < GraceMs
    ensures r != s ==> r == Destroy(s, guildId)
  {
    if recoveredAfterMs.Some? && recoveredAfterMs.value < GraceMs then s
    else Destroy(s, guildId)
  }

  /** `leaveChannel(guildId)`: destroy the guild's connection if there is one. */
  function LeaveOutcome(s: VoiceState, guildId: string): (r: VoiceState)
    ensures guildId !in r.connections
    ensures r.connections.Keys == s.connections.Keys - {guildId}
    ensures guildId in s.connections ==> r.destroyed == s.destroyed + [s.connections[guildId]]
    ensures guildId !in s.connections ==> r == s
  {
    if guildId in s.connections then Destroy(s, guildId) else s
  }

  class VoiceService {
    var connections: map<string, Connection>
    var destroyed: seq<Connection>

    function State(): VoiceState
      reads this
    {
      VoiceState(connections, destroyed)
    }

    constructor ()
      ensures State() == VoiceState(map[], [])
    {
      connections := map[];
      destroyed := [];
    }

    method JoinChannel(channel: Channel, join: Result<(), Error>) returns (r: Result<Connection, Error>)
      modifies this
      ensures JoinStep(r, State()) == JoinOutcome(old(State()), channel, join)
    {
      if join.Err? {
        return Err(join.error);
      }
      var connection := Connection(channel.id, channel.guildId, false, false);
      connections := connections[channel.guildId := connection];
      return Ok(connection);
    }

    /**
     * The Ready handler: starts a call for the joined channel. The promise
     * `startCall` returns is not awaited, so its result is dropped.
     */
    method OnReady(guildId: string, vapi: VapiService, cfg: VapiConfig, response: Result<CallResponse, Error>,
                   connect: Result<(), Error>)
      requires guildId in connections
      modifies vapi
      ensures vapi.State() == StartOutcome(old(vapi.State()), cfg, connections[guildId].channelId, response, connect).state
    {
      var _ := vapi.StartCall(cfg, connections[guildId].channelId, response, connect);
    }

    method OnDisconnected(guildId: string, recoveredAfterMs: Option<nat>)
      requires guildId in connections
      modifies this
      ensures State() == DisconnectOutcome(old(State()), guildId, recoveredAfterMs)
    {
      if recoveredAfterMs.Some? && recoveredAfterMs.value < GraceMs {
        return;
      }
      destroyed := destroyed + [connections[guildId]];
      connections := connections - {guildId};
    }

    method LeaveChannel(guildId: string)
      modifies this
      ensures State() == LeaveOutcome(old(State()), guildId)
    {
      if guildId in connections {
        destroyed := destroyed + [connections[guildId]];
        connections := connections - {guildId};
      }
    }
  }

  // ---------------------------------------------------------------- properties

  /** A join connects to the channel's id in its guild, neither deafened nor muted, and replaces nothing else. */
  lemma JoinUsesChannel(s: VoiceState, channel: Channel)
    ensures JoinOutcome(s, channel, Ok(())).result == Ok(Connection(channel.id, channel.guildId, false, false))
    ensures JoinOutcome(s, channel, Ok(())).state.connections[channel.guildId] == Connection(channel.id, channel.guildId, false, false)
    ensures forall g :: g in s.connections && g != channel.guildId ==>
              g in JoinOutcome(s, channel, Ok(())).state.connections && JoinOutcome(s, channel, Ok(())).state.connections[g] == s.connections[g]
  {
  }

  /** A failing join is rethrown to the caller and changes nothing. */
  lemma JoinErrorRethrown(s: VoiceState, channel: Channel, e: Error)
    ensures JoinOutcome(s, channel, Err(e)) == JoinStep(Err(e), s)
  {
  }

  /** Ready starts a call named after the channel the guild's connection joined, when the credentials are set. */
  lemma {:induction false} ReadyCallsForChannel(s: VoiceState, guildId: string, v: VapiState, cfg: VapiConfig,
                                                response: Result<CallResponse, Error>, connect: Result<(), Error>)
    requires guildId in s.connections && Truthy(cfg.apiKey) && Truthy(cfg.assistantId)
    ensures var after := StartOutcome(v, cfg, s.connections[guildId].channelId, response, connect).state;
            |after.requests| == |v.requests| + 1 &&
            after.requests[|v.requests|].name == "Discord-" + s.connections[guildId].channelId
  {
    RequestShape(v, cfg, s.connections[guildId].channelId, response, connect);
  }

  /** Reaching Signalling or Connecting within the window keeps the connection: nothing is destroyed. */
  lemma RecoveryKeepsConnection(s: VoiceState, guildId: string, afterMs: nat)
    requires guildId in s.connections && afterMs < GraceMs
    ensures DisconnectOutcome(s, guildId, Some(afterMs)) == s
  {
  }

  /** Otherwise the connection is destroyed, exactly once, and the other guilds keep theirs. */
  lemma {:induction false} TimeoutDestroysOnce(s: VoiceState, guildId: string, recoveredAfterMs: Option<nat>)
    requires guildId in s.connections
    requires recoveredAfterMs.None? || recoveredAfterMs.value >= GraceMs
    ensures DisconnectOutcome(s, guildId, recoveredAfterMs).destroyed == s.destroyed + [s.connections[guildId]]
    ensures DisconnectOutcome(s, guildId, recoveredAfterMs).connections == s.connections - {guildId}
  {
  }

  /** Leaving is idempotent, and a no-op for a guild without a connection. */
  lemma {:induction false} LeaveIdempotent(s: VoiceState, guildId: string)
    ensures guildId !in LeaveOutcome(s, guildId).connections
    ensures LeaveOutcome(LeaveOutcome(s, guildId), guildId) == LeaveOutcome(s, guildId)
    ensures guildId !in s.connections ==> LeaveOutcome(s, guildId) == s
  {
  }
}
