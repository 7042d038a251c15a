/**
 * The values the tracking core works on: the static server configuration,
 * the facts the Discord client returns for a guild, the per-server tracker
 * records, the records the fetch cycle emits and caches, the inbound events
 * and the broadcasts sent to live viewers.
 */
module Records {
  import opened Wrappers
  import opened Health

  type ServerId = string
  type ChannelId = string
  type UserId = string

  /** An ISO-8601 time stamp read from the clock by the caller. */
  type Timestamp = string

  /** A guild id as JavaScript holds it: `null`, `undefined` or a string. */
  datatype GuildRef = Null | Undefined | Id(value: string)

  /** JavaScript truthiness of a guild id: a non-empty string. */
  predicate Truthy(g: GuildRef) {
    g.Id? && g.value != ""
  }

  /** JavaScript truthiness of an optional string. */
  predicate Present(s: Option<string>) {
    s.Some? && s.value != ""
  }

  /** One entry of `serverConfig`; `private` is false where the entry leaves it undefined. */
  datatype ServerConfig = ServerConfig(
    id: ServerId, name: string, role: string, invite: Option<string>, guildId: GuildRef,
    private: bool, category: string, language: string, description: string)

  /**
   * The five configured servers; the two private ones take their guild id
   * from the environment, the three public ones resolve it from the invite.
   */
  function ServerConfigList(whitelistGuild: GuildRef, badsideGuild: GuildRef): (r: seq<ServerConfig>)
    ensures |r| == 5
    ensures forall i, j :: 0 <= i < j < |r| ==> r[i].id != r[j].id
    ensures forall i :: 0 <= i < |r| ==> (r[i].private <==> r[i].invite.None?)
    ensures forall i :: 0 <= i < |r| && !r[i].private ==> r[i].guildId == Null
  {
    [ ServerConfig("CEOKOPAT_ALTER_EGO", "CEOKOPAT ALTER EGO", "Owner", Some("https://discord.gg/uhsnuMdx69"),
                   Null, false, "Community", "Indonesian", "Main community server with active members"),
      ServerConfig("MOTIONLIFE_ROLEPLAY", "Motionlife Roleplay", "Staff Discord", Some("https://discord.gg/motionliferoleplay"),
                   Null, false, "Gaming", "Indonesian", "Roleplay gaming community server"),
      ServerConfig("MOTIONLIFE_WHITELIST", "Motionlife Whitelist", "Admin", None,
                   whitelistGuild, true, "Private", "Indonesian", "Private whitelist management server"),
      ServerConfig("MOTIONLIFE_BADSIDE", "Motionlife Badside", "Admin", None,
                   badsideGuild, true, "Private", "Indonesian", "Private administrative server"),
      ServerConfig("EX_HITMEN", "Ex Hitmen", "Owner", Some("https://discord.gg/2mBX4Uzgsr"),
                   Null, false, "Gaming", "Indonesian", "Gaming community focused on competitive play") ]
  }

  /**
   * `serverConfig.find(s => s.guildId === g)?.id`: the id of the first entry
   * whose configured guild id is strictly equal to g.
   */
  function FindServerId(config: seq<ServerConfig>, g: GuildRef): (r: Option<ServerId>)
    ensures r.None? <==> forall i :: 0 <= i < |config| ==> config[i].guildId != g
    ensures r.Some? ==> exists i :: 0 <= i < |config| && config[i].guildId == g && config[i].id == r.value &&
                                    forall j :: 0 <= j < i ==> config[j].guildId != g
  {
    if config == [] then None
    else if config[0].guildId == g then Some(config[0].id)
    else
      var r := FindServerId(config[1..], g);
      assert r.Some? ==> exists i :: 1 <= i < |config| && config[i].guildId == g && config[i].id == r.value &&
                                     forall j :: 0 <= j < i ==> config[j].guildId != g by {
        if r.Some? {
          var k :| 0 <= k < |config| - 1 && config[1..][k].guildId == g && config[1..][k].id == r.value &&
                   forall j :: 0 <= j < k ==> config[1..][j].guildId != g;
          assert forall j :: 1 <= j < k + 1 ==> config[j].guildId != g by {
            forall j | 1 <= j < k + 1 ensures config[j].guildId != g { assert config[j] == config[1..][j - 1]; }
          }
        }
      }
      r
  }

  // ---- what the Discord client reports about a guild (oracle input) ----

  datatype Member = Member(id: UserId, username: string)

  /** A channel; `kind` is the channel type, 2 for a voice channel. */
  datatype Channel = Channel(id: ChannelId, name: string, kind: int, members: seq<Member>)

  /** The guild facts one fetch reads; `onlineCount` is the presence-filtered member count. */
  datatype GuildFacts = GuildFacts(
    memberCount: nat, onlineCount: nat, channels: seq<Channel>, icon: Option<string>,
    premiumTier: nat, premiumSubscriptionCount: Option<nat>, createdTimestamp: int, features: seq<string>)

  /** The outcome of looking a guild up: found, not in the client's cache, or an exception. */
  datatype GuildLookup = Found(guild: GuildFacts) | NotCached | Raised(message: string)

  // ---- tracker records ----

  datatype MemberEvent = MemberJoin | MemberLeave

  datatype GrowthSample = GrowthSample(date: Timestamp, count: nat, event: Option<MemberEvent>)

  /** A health-history entry; the score is None where the source stores NaN. */
  datatype HealthSample = HealthSample(date: Timestamp, score: Option<int>)

  /** `analyticsData` value (the never-written `dailyActivity`/`weeklyStats` arrays are not modelled). */
  datatype Analytics = Analytics(memberGrowth: seq<GrowthSample>, peakHours: seq<nat>, healthHistory: seq<HealthSample>)

  /** `activityTracker` value. */
  datatype Activity = Activity(totalMessages: nat, activeUsers: set<UserId>, channelActivity: map<ChannelId, nat>, lastReset: Timestamp)

  datatype VoiceAction = Join | Leave | Move

  datatype VoiceEvent = VoiceEvent(userId: UserId, username: string, action: VoiceAction, channel: Option<string>, timestamp: Timestamp)

  /** One entry of a voice tracker's `activeChannels`. */
  datatype Occupant = Occupant(name: string, memberCount: nat, members: seq<Member>)

  /** `voiceTracker` value. */
  datatype Voice = Voice(activeChannels: map<ChannelId, Occupant>, totalVoiceTime: nat, peakVoiceUsers: nat, voiceEvents: seq<VoiceEvent>)

  // ---- records emitted by the fetch cycle ----

  /** The configuration fields copied into every emitted record. */
  datatype Descriptor = Descriptor(
    id: ServerId, name: string, role: string, invite: Option<string>, private: bool,
    category: string, language: string, description: string)

  function Describe(cfg: ServerConfig): Descriptor {
    Descriptor(cfg.id, cfg.name, cfg.role, cfg.invite, cfg.private, cfg.category, cfg.language, cfg.description)
  }

  datatype VoiceData = VoiceData(channelName: string, memberCount: nat, members: seq<string>)

  datatype GuildStats = GuildStats(
    icon: Option<string>, memberCount: nat, channelCount: nat, onlineCount: nat,
    voiceChannels: nat, activeVoiceChannels: nat, totalVoiceMembers: nat, voiceData: seq<VoiceData>,
    boostLevel: nat, boostCount: nat, createdAt: int, features: seq<string>)

  /**
   * A `serverData` element: a record built from a fetched guild, or the
   * restricted record of a private server whose guild could not be resolved.
   * `error` is set only on a cached copy served after an exception.
   */
  datatype ServerItem =
    | Live(descriptor: Descriptor, stats: GuildStats, healthScore: HealthScore,
           memberGrowth: seq<GrowthSample>, healthTrend: seq<HealthSample>,
           lastFetched: Timestamp, error: Option<string>)
    | Restricted(descriptor: Descriptor, lastFetched: Timestamp, error: Option<string>)

  /** A count field: a number, or the string 'Private'. */
  datatype Count = Num(n: nat) | Private

  function MemberCountOf(item: ServerItem): Count {
    if item.Live? then Num(item.stats.memberCount) else Private
  }

  function OnlineCountOf(item: ServerItem): Count {
    if item.Live? then Num(item.stats.onlineCount) else Private
  }

  function ChannelCountOf(item: ServerItem): Count {
    if item.Live? then Num(item.stats.channelCount) else Private
  }

  function HealthOf(item: ServerItem): HealthScore {
    if item.Live? then item.healthScore else Withheld
  }

  // ---- inbound events and outbound broadcasts ----

  datatype Message = Message(authorId: UserId, authorIsBot: bool, guild: GuildRef, channelId: ChannelId)

  /** A voice state change; a channel is given by its name, absent when the member is in none. */
  datatype VoiceStateChange = VoiceStateChange(
    guild: GuildRef, memberId: UserId, username: string, oldChannel: Option<string>, newChannel: Option<string>)

  /** A member joining or leaving; `memberCount` is the guild's count after the change. */
  datatype MemberChange = MemberChange(guild: GuildRef, username: string, avatar: string, memberCount: nat)

  /** The socket.io emits, kept as an output log. */
  datatype Broadcast =
    | ServerUpdate(serverId: ServerId, data: ServerItem)
    | GlobalStatsUpdate(totalServers: nat, totalMembers: nat, totalOnline: nat, lastUpdate: Timestamp)
    | ActivityUpdate(serverId: ServerId, totalMessages: nat, activeUsers: nat)
    | VoiceUpdate(serverId: ServerId, event: VoiceEvent)
    | MemberUpdate(serverId: ServerId, kind: MemberEvent, username: string, avatar: string, newCount: nat)
}
