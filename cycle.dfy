/**
 * The pure specification of the tracking core: the in-process state (the
 * snapshot cache, the three tracker maps, the last-update stamp and the log
 * of broadcasts), the per-entry decision of `fetchServerData`, the whole
 * fetch cycle, and the four event handlers, with the invariants they keep.
 */
module Cycle {
  import opened Wrappers
  import opened Health
  import opened Records
  import opened Trackers
  import Windows
  import Invite
  import Aggregate

  datatype State = State(
    cache: map<ServerId, ServerItem>,
    analytics: map<ServerId, Analytics>,
    activity: map<ServerId, Activity>,
    voice: map<ServerId, Voice>,
    lastUpdate: Timestamp,
    emitted: seq<Broadcast>)

  /** A cached record is a record built from a fetched guild, under its own id, without an error. */
  predicate Cacheable(id: ServerId, item: ServerItem) {
    item.Live? && item.error.None? && item.descriptor.id == id
  }

  /**
   * What every reachable state satisfies: the health history and the voice
   * event log are within their windows, and the cache holds only fetched
   * records. The growth history is NOT bounded: member events push to it
   * without trimming.
   */
  ghost predicate Inv(s: State) {
    HealthBounded(s.analytics) && VoiceLogBounded(s.voice) && CacheClean(s.cache)
  }

  ghost predicate HealthBounded(m: map<ServerId, Analytics>) {
    forall id :: id in m ==> |m[id].healthHistory| <= HealthWindow
  }

  ghost predicate VoiceLogBounded(m: map<ServerId, Voice>) {
    forall id :: id in m ==> |m[id].voiceEvents| <= VoiceEventWindow
  }

  ghost predicate CacheClean(m: map<ServerId, ServerItem>) {
    forall id :: id in m ==> Cacheable(id, m[id])
  }

  // ---- one entry of the fetch cycle ----

  /**
   * The configured guild id, or the one the invite code resolves to when none
   * is configured: the invite is consulted only for a falsy guild id and a
   * non-empty invite.
   */
  function ResolveGuildId(cfg: ServerConfig, resolveInvite: string -> GuildRef): (r: GuildRef)
    ensures Truthy(cfg.guildId) ==> r == cfg.guildId
    ensures !Present(cfg.invite) ==> r == cfg.guildId
    ensures !Truthy(cfg.guildId) && Present(cfg.invite) ==> r == resolveInvite(Invite.LastSegment(cfg.invite.value))
    ensures r != cfg.guildId ==>
      !Truthy(cfg.guildId) && Present(cfg.invite) && r == resolveInvite(Invite.LastSegment(cfg.invite.value))
  {
    if !Truthy(cfg.guildId) && Present(cfg.invite) then resolveInvite(Invite.LastSegment(cfg.invite.value))
    else cfg.guildId
  }

  /**
   * The record of a private server whose guild is unknown: the entry's
   * descriptor without its invite and marked private, every count withheld,
   * the score `{ overall: 0 }`, stamped with the fetch time.
   */
  function RestrictedRecord(cfg: ServerConfig, now: Timestamp): (r: ServerItem)
    ensures r.Restricted? && r.lastFetched == now && r.error.None?
    ensures r.descriptor.id == cfg.id && r.descriptor.name == cfg.name && r.descriptor.role == cfg.role
    ensures r.descriptor.category == cfg.category && r.descriptor.language == cfg.language
    ensures r.descriptor.description == cfg.description && r.descriptor.invite.None? && r.descriptor.private
    ensures MemberCountOf(r) == Private && OnlineCountOf(r) == Private && ChannelCountOf(r) == Private
    ensures OverallOf(HealthOf(r)) == Some(0)
  {
    Restricted(Describe(cfg).(invite := None, private := true), now, None)
  }

  /**
   * The score of a fetched guild: a finite score exactly when it has members
   * and channels; otherwise the source's divisions by zero give NaN.
   */
  function ScoreGuild(g: GuildFacts, growth: seq<GrowthSample>, activity: Activity, voice: Voice): (r: HealthScore)
    ensures r.NotFinite? <==> g.memberCount == 0 || |g.channels| == 0
    ensures !r.NotFinite? ==> r.Scored?
    ensures r.Scored? ==>
      r == CalculateHealthScore(HealthFacts(g.memberCount, g.onlineCount, |g.channels|),
                                Some(Counts(growth)), Some(activity.totalMessages), Some(|voice.activeChannels|))
  {
    if g.memberCount > 0 && |g.channels| > 0 then
      CalculateHealthScore(HealthFacts(g.memberCount, g.onlineCount, |g.channels|),
                           Some(Counts(growth)), Some(activity.totalMessages), Some(|voice.activeChannels|))
    else NotFinite
  }

  /**
   * The counts of a fetched guild: the active voice channels are among the
   * voice channels, which are among all channels; `voiceData` has one entry
   * per active voice channel, and their member counts add up to
   * `totalVoiceMembers`.
   */
  function StatsOf(g: GuildFacts): (r: GuildStats)
    ensures r.activeVoiceChannels == |r.voiceData| && r.activeVoiceChannels <= r.voiceChannels <= r.channelCount
    ensures r.totalVoiceMembers == SumMemberCounts(r.voiceData)
    ensures r.memberCount == g.memberCount && r.onlineCount == g.onlineCount && r.channelCount == |g.channels|
    ensures r.voiceData == VoiceDataList(g.channels) && r.activeVoiceChannels == CountActiveVoice(g.channels)
    ensures r.voiceChannels == CountVoice(g.channels) && r.totalVoiceMembers == TotalVoiceMembers(g.channels)
    ensures r.icon == g.icon && r.boostLevel == g.premiumTier && r.boostCount == g.premiumSubscriptionCount.GetOr(0)
    ensures r.createdAt == g.createdTimestamp && r.features == g.features
  {
    VoiceCountsOrdered(g.channels);
    TotalIsSumOfVoiceData(g.channels);
    GuildStats(g.icon, g.memberCount, |g.channels|, g.onlineCount, CountVoice(g.channels),
               CountActiveVoice(g.channels), TotalVoiceMembers(g.channels), VoiceDataList(g.channels),
               g.premiumTier, g.premiumSubscriptionCount.GetOr(0), g.createdTimestamp, g.features)
  }

  /** One server's trackers after a successful fetch, and the score they produced. */
  datatype Tracked = Tracked(analytics: Analytics, activity: Activity, voice: Voice, score: HealthScore)

  /**
   * The tracker updates of a fetched guild, in the source's order: the
   * occupancy is rebuilt and the peak raised to the voice total when that is
   * higher, a growth sample is appended (sliding the window in order),
   * the score is computed over the new growth history and the rebuilt
   * occupancy, and its overall value is appended to the health history.
   */
  function TrackGuild(a: Analytics, act: Activity, v: Voice, g: GuildFacts, now: Timestamp): (r: Tracked)
    ensures r.activity == act
    ensures r.voice.activeChannels == Occupancy(g.channels)
    ensures r.voice.peakVoiceUsers >= v.peakVoiceUsers && r.voice.peakVoiceUsers >= TotalVoiceMembers(g.channels)
    ensures r.voice.peakVoiceUsers == v.peakVoiceUsers || r.voice.peakVoiceUsers == TotalVoiceMembers(g.channels)
    ensures r.voice.voiceEvents == v.voiceEvents && r.voice.totalVoiceTime == v.totalVoiceTime
    ensures 0 < |r.analytics.memberGrowth| <= GrowthWindow
    ensures r.analytics.memberGrowth[|r.analytics.memberGrowth| - 1] == GrowthSample(now, g.memberCount, None)
    ensures |a.memberGrowth| < GrowthWindow ==> r.analytics.memberGrowth == a.memberGrowth + [GrowthSample(now, g.memberCount, None)]
    ensures forall i :: 0 <= i < |r.analytics.memberGrowth| - 1 ==>
      r.analytics.memberGrowth[i] == a.memberGrowth[|a.memberGrowth| - |r.analytics.memberGrowth| + 1 + i]
    ensures r.score == ScoreGuild(g, r.analytics.memberGrowth, act, r.voice)
    ensures 0 < |r.analytics.healthHistory| <= HealthWindow
    ensures r.analytics.healthHistory[|r.analytics.healthHistory| - 1] == HealthSample(now, OverallOf(r.score))
    ensures |a.healthHistory| < HealthWindow ==> r.analytics.healthHistory == a.healthHistory + [HealthSample(now, OverallOf(r.score))]
    ensures forall i :: 0 <= i < |r.analytics.healthHistory| - 1 ==>
      r.analytics.healthHistory[i] == a.healthHistory[|a.healthHistory| - |r.analytics.healthHistory| + 1 + i]
    ensures r.analytics.peakHours == a.peakHours
  {
    var voiceTrack := RebuildVoice(v, g.channels);
    var grown := AppendGrowth(a, GrowthSample(now, g.memberCount, None));
    var score := ScoreGuild(g, grown.memberGrowth, act, voiceTrack);
    Tracked(AppendHealth(grown, HealthSample(now, OverallOf(score))), act, voiceTrack, score)
  }

  datatype EntryResult = EntryResult(state: State, item: Option<ServerItem>)

  /**
   * The record a fetched guild produces: its stats, its score and the two
   * history views, at most 7 growth and 24 health samples ending with the
   * newest one. It is fit for the cache.
   */
  function LiveRecord(cfg: ServerConfig, stats: GuildStats, score: HealthScore, a: Analytics, now: Timestamp): (r: ServerItem)
    ensures Cacheable(cfg.id, r) && r.descriptor == Describe(cfg) && r.stats == stats && r.healthScore == score
    ensures |r.memberGrowth| <= GrowthView && |r.healthTrend| <= HealthTrendView
    ensures |a.memberGrowth| > 0 ==> |r.memberGrowth| > 0 && r.memberGrowth[|r.memberGrowth| - 1] == a.memberGrowth[|a.memberGrowth| - 1]
    ensures |a.healthHistory| > 0 ==> |r.healthTrend| > 0 && r.healthTrend[|r.healthTrend| - 1] == a.healthHistory[|a.healthHistory| - 1]
  {
    Live(Describe(cfg), stats, score,
         Windows.Last(a.memberGrowth, GrowthView), Windows.Last(a.healthHistory, HealthTrendView), now, None)
  }

  /**
   * Store the updated trackers of `id`, write the record to the cache and
   * broadcast it. Every other server's trackers and an existing activity
   * record are kept; the last-update stamp is untouched.
   */
  function Commit(s: State, id: ServerId, now: Timestamp, t: Tracked, item: ServerItem): (r: State)
    ensures r.cache == s.cache[id := item]
    ensures r.analytics.Keys == s.analytics.Keys + {id} && r.analytics[id] == t.analytics
    ensures r.voice.Keys == s.voice.Keys + {id} && r.voice[id] == t.voice
    ensures r.activity.Keys == s.activity.Keys + {id}
    ensures forall k :: k in s.analytics && k != id ==> r.analytics[k] == s.analytics[k]
    ensures forall k :: k in s.voice && k != id ==> r.voice[k] == s.voice[k]
    ensures forall k :: k in s.activity ==> r.activity[k] == s.activity[k]
    ensures r.lastUpdate == s.lastUpdate && r.emitted == s.emitted + [ServerUpdate(id, item)]
  {
    s.(cache := s.cache[id := item],
       analytics := Initialized(s.analytics, id, FreshAnalytics())[id := t.analytics],
       activity := Initialized(s.activity, id, FreshActivity(now)),
       voice := Initialized(s.voice, id, FreshVoice())[id := t.voice],
       emitted := s.emitted + [ServerUpdate(id, item)])
  }

  /**
   * The success path: trackers created and updated, a fresh record with the
   * guild's stats cached under the entry's id and broadcast; the last-update
   * stamp is untouched.
   */
  function Refresh(s: State, cfg: ServerConfig, g: GuildFacts, now: Timestamp): (r: EntryResult)
    ensures r.item.Some? && Cacheable(cfg.id, r.item.value) && r.item.value.descriptor == Describe(cfg)
    ensures r.item.value.stats == StatsOf(g) && r.item.value.lastFetched == now
    ensures r.state.cache == s.cache[cfg.id := r.item.value] && r.state.lastUpdate == s.lastUpdate
    ensures r.state.emitted == s.emitted + [ServerUpdate(cfg.id, r.item.value)]
  {
    var id := cfg.id;
    var t := TrackGuild(Initialized(s.analytics, id, FreshAnalytics())[id],
                        Initialized(s.activity, id, FreshActivity(now))[id],
                        Initialized(s.voice, id, FreshVoice())[id], g, now);
    var item := LiveRecord(cfg, StatsOf(g), t.score, t.analytics, now);
    EntryResult(Commit(s, id, now, t, item), Some(item))
  }

  /** The body of the `for` loop of `fetchServerData` for one configuration entry. */
  function FetchEntry(s: State, cfg: ServerConfig, resolveInvite: string -> GuildRef,
                      lookupGuild: string -> GuildLookup, now: Timestamp): (r: EntryResult)
    ensures var guildId := ResolveGuildId(cfg, resolveInvite);
      r.state != s ==> Truthy(guildId) && lookupGuild(guildId.value).Found?
    ensures !Truthy(ResolveGuildId(cfg, resolveInvite)) ==> r.state == s && (r.item.Some? <==> cfg.private)
    ensures r.state.lastUpdate == s.lastUpdate
    ensures |s.emitted| <= |r.state.emitted| <= |s.emitted| + 1 && r.state.emitted[..|s.emitted|] == s.emitted
  {
    var guildId := ResolveGuildId(cfg, resolveInvite);
    if Truthy(guildId) then
      match lookupGuild(guildId.value)
      case Found(g) => Refresh(s, cfg, g, now)
      case NotCached => EntryResult(s, if cfg.id in s.cache then Some(s.cache[cfg.id]) else None)
      case Raised(msg) => EntryResult(s, if cfg.id in s.cache then Some(s.cache[cfg.id].(error := Some(msg))) else None)
    else if cfg.private then EntryResult(s, Some(RestrictedRecord(cfg, now)))
    else EntryResult(s, None)
  }

  // ---- the whole cycle ----

  datatype CycleResult = CycleResult(state: State, serverData: seq<ServerItem>)

  function ItemList(item: Option<ServerItem>): seq<ServerItem> {
    if item.Some? then [item.value] else []
  }

  /** The loop over the entries, in configuration order. */
  function FetchEntries(s: State, entries: seq<ServerConfig>, resolveInvite: string -> GuildRef,
                        lookupGuild: string -> GuildLookup, now: Timestamp): (r: CycleResult)
    ensures |r.serverData| <= |entries|
    ensures r.state.lastUpdate == s.lastUpdate
    ensures |s.emitted| <= |r.state.emitted| <= |s.emitted| + |entries| && r.state.emitted[..|s.emitted|] == s.emitted
    decreases |entries|
  {
    if entries == [] then CycleResult(s, [])
    else
      var prior := FetchEntries(s, entries[..|entries| - 1], resolveInvite, lookupGuild, now);
      var r := FetchEntry(prior.state, entries[|entries| - 1], resolveInvite, lookupGuild, now);
      assert r.state.emitted[..|s.emitted|] == prior.state.emitted[..|s.emitted|];
      CycleResult(r.state, prior.serverData + ItemList(r.item))
  }

  /** `fetchServerData`: every entry, then the last-update stamp and the global statistics broadcast. */
  function FetchCycle(s: State, config: seq<ServerConfig>, resolveInvite: string -> GuildRef,
                      lookupGuild: string -> GuildLookup, now: Timestamp): (r: CycleResult)
    ensures r.state.lastUpdate == now && |r.serverData| <= |config|
    ensures |s.emitted| < |r.state.emitted| <= |s.emitted| + |config| + 1 && r.state.emitted[..|s.emitted|] == s.emitted
    ensures r.state.emitted[|r.state.emitted| - 1].GlobalStatsUpdate?
    ensures r.state.emitted[|r.state.emitted| - 1].totalServers == |r.serverData|
  {
    var r := FetchEntries(s, config, resolveInvite, lookupGuild, now);
    var out := r.serverData;
    CycleResult(
      r.state.(lastUpdate := now,
               emitted := r.state.emitted + [GlobalStatsUpdate(|out|, Aggregate.MemberTotal(out), Aggregate.OnlineTotal(out), now)]),
      out)
  }

  // ---- event handlers ----

  /** The tracked server of an event: the id `find` returns, when it is truthy. */
  function TrackedId(config: seq<ServerConfig>, g: GuildRef): Option<ServerId> {
    var found := FindServerId(config, g);
    if found.Some? && found.value != "" then found else None
  }

  /**
   * `messageCreate`: only the activity record of the message's server and the
   * broadcast log can change, and a bot's message changes nothing.
   */
  function OnMessage(s: State, config: seq<ServerConfig>, msg: Message): (r: State)
    ensures r.cache == s.cache && r.analytics == s.analytics && r.voice == s.voice && r.lastUpdate == s.lastUpdate
    ensures r.activity.Keys == s.activity.Keys
    ensures msg.authorIsBot ==> r == s
    ensures |s.emitted| <= |r.emitted| <= |s.emitted| + 1 && r.emitted[..|s.emitted|] == s.emitted
  {
    var id := TrackedId(config, msg.guild);
    if msg.authorIsBot || id.None? || id.value !in s.activity then s
    else
      var a := RecordMessage(s.activity[id.value], msg.authorId, msg.channelId);
      s.(activity := s.activity[id.value := a],
         emitted := s.emitted + [ActivityUpdate(id.value, a.totalMessages, |a.activeUsers|)])
  }

  function VoiceEventOf(ev: VoiceStateChange, now: Timestamp): VoiceEvent {
    VoiceEvent(ev.memberId, ev.username, ClassifyVoice(ev.oldChannel, ev.newChannel),
               EventChannelName(ev.oldChannel, ev.newChannel), now)
  }

  /**
   * `voiceStateUpdate`: only the event logs and the broadcast log can change;
   * no server's occupancy, peak or voice time does.
   */
  function OnVoiceState(s: State, config: seq<ServerConfig>, ev: VoiceStateChange, now: Timestamp): (r: State)
    ensures r.cache == s.cache && r.analytics == s.analytics && r.activity == s.activity && r.lastUpdate == s.lastUpdate
    ensures r.voice.Keys == s.voice.Keys
    ensures forall k :: k in s.voice ==>
      && r.voice[k].activeChannels == s.voice[k].activeChannels
      && r.voice[k].peakVoiceUsers == s.voice[k].peakVoiceUsers
      && r.voice[k].totalVoiceTime == s.voice[k].totalVoiceTime
    ensures forall k :: k in s.voice && Some(k) != TrackedId(config, ev.guild) ==> r.voice[k] == s.voice[k]
    ensures |s.emitted| <= |r.emitted| <= |s.emitted| + 1 && r.emitted[..|s.emitted|] == s.emitted
  {
    var id := TrackedId(config, ev.guild);
    if id.None? || id.value !in s.voice then s
    else
      var e := VoiceEventOf(ev, now);
      s.(voice := s.voice[id.value := RecordVoiceEvent(s.voice[id.value], e)],
         emitted := s.emitted + [VoiceUpdate(id.value, e)])
  }

  /**
   * The synchronous part of `guildMemberAdd` (MemberJoin) and
   * `guildMemberRemove` (MemberLeave); both handlers then run a fetch cycle.
   * Only growth histories and the broadcast log can change, each history by
   * one sample at most.
   */
  function OnMemberChange(s: State, config: seq<ServerConfig>, ev: MemberChange, kind: MemberEvent, now: Timestamp): (r: State)
    ensures r.cache == s.cache && r.activity == s.activity && r.voice == s.voice && r.lastUpdate == s.lastUpdate
    ensures r.analytics.Keys == s.analytics.Keys
    ensures forall k :: k in s.analytics ==>
      && r.analytics[k].healthHistory == s.analytics[k].healthHistory
      && |s.analytics[k].memberGrowth| <= |r.analytics[k].memberGrowth| <= |s.analytics[k].memberGrowth| + 1
    ensures forall k :: k in s.analytics && Some(k) != TrackedId(config, ev.guild) ==> r.analytics[k] == s.analytics[k]
    ensures |s.emitted| <= |r.emitted| <= |s.emitted| + 1 && r.emitted[..|s.emitted|] == s.emitted
  {
    var id := TrackedId(config, ev.guild);
    if id.None? then s
    else
      var analytics :=
        if id.value in s.analytics
        then s.analytics[id.value := RecordMemberEvent(s.analytics[id.value], GrowthSample(now, ev.memberCount, Some(kind)))]
        else s.analytics;
      s.(analytics := analytics,
         emitted := s.emitted + [MemberUpdate(id.value, kind, ev.username, ev.avatar, ev.memberCount)])
  }

  // ---- properties ----

  /** A fetched entry: windows appended and bounded, occupancy rebuilt, peak raised, record cached. */
  lemma RefreshEffects(s: State, cfg: ServerConfig, g: GuildFacts, now: Timestamp)
    ensures var r := Refresh(s, cfg, g, now);
      var id := cfg.id;
      var a := r.state.analytics[id];
      var v := r.state.voice[id];
      && id in r.state.analytics && id in r.state.activity && id in r.state.voice
      && 0 < |a.memberGrowth| <= GrowthWindow
      && a.memberGrowth[|a.memberGrowth| - 1] == GrowthSample(now, g.memberCount, None)
      && 0 < |a.healthHistory| <= HealthWindow
      && a.healthHistory[|a.healthHistory| - 1].score == OverallOf(r.item.value.healthScore)
      && v.activeChannels == Occupancy(g.channels)
      && v.peakVoiceUsers >= TotalVoiceMembers(g.channels)
      && (id in s.voice ==> v.peakVoiceUsers >= s.voice[id].peakVoiceUsers)
      && (id in s.voice ==> v.peakVoiceUsers == s.voice[id].peakVoiceUsers || v.peakVoiceUsers == TotalVoiceMembers(g.channels))
      && (id !in s.voice ==> v.peakVoiceUsers == TotalVoiceMembers(g.channels))
      && (id in s.activity ==> r.state.activity[id] == s.activity[id])
      && r.item.Some? && r.state.cache == s.cache[id := r.item.value]
      && Cacheable(id, r.item.value)
      && r.item.value.memberGrowth == Windows.Last(a.memberGrowth, GrowthView)
      && r.item.value.healthTrend == Windows.Last(a.healthHistory, HealthTrendView)
      && r.state.emitted == s.emitted + [ServerUpdate(id, r.item.value)]
  {
  }

  /**
   * A private entry without a resolvable guild yields the restricted record
   * (all counts 'Private', overall score 0) and changes nothing, so that
   * record never reaches the cache.
   */
  lemma RestrictedEntry(s: State, cfg: ServerConfig, resolveInvite: string -> GuildRef,
                        lookupGuild: string -> GuildLookup, now: Timestamp)
    requires cfg.private && !Truthy(ResolveGuildId(cfg, resolveInvite))
    ensures var r := FetchEntry(s, cfg, resolveInvite, lookupGuild, now);
      && r.state == s
      && r.item == Some(RestrictedRecord(cfg, now))
      && MemberCountOf(r.item.value) == Private && OnlineCountOf(r.item.value) == Private
      && ChannelCountOf(r.item.value) == Private
      && OverallOf(HealthOf(r.item.value)) == Some(0)
      && r.item.value.descriptor.invite.None? && r.item.value.descriptor.private
  {
  }

  /** An exception yields the cached copy with the error attached, and leaves the state unchanged. */
  lemma RaisedEntry(s: State, cfg: ServerConfig, resolveInvite: string -> GuildRef,
                    lookupGuild: string -> GuildLookup, now: Timestamp, msg: string)
    requires Inv(s)
    requires Truthy(ResolveGuildId(cfg, resolveInvite))
    requires lookupGuild(ResolveGuildId(cfg, resolveInvite).value) == Raised(msg)
    ensures var r := FetchEntry(s, cfg, resolveInvite, lookupGuild, now);
      && r.state == s
      && (cfg.id in s.cache <==> r.item.Some?)
      && (cfg.id in s.cache ==> r.item.value == s.cache[cfg.id].(error := Some(msg)) && r.item.value.Live?)
  {
  }

  /** A guild missing from the client's cache yields the cached copy, if any, and changes nothing. */
  lemma MissingGuildEntry(s: State, cfg: ServerConfig, resolveInvite: string -> GuildRef,
                          lookupGuild: string -> GuildLookup, now: Timestamp)
    requires Truthy(ResolveGuildId(cfg, resolveInvite))
    requires lookupGuild(ResolveGuildId(cfg, resolveInvite).value) == NotCached
    ensures var r := FetchEntry(s, cfg, resolveInvite, lookupGuild, now);
      r.state == s && r.item == (if cfg.id in s.cache then Some(s.cache[cfg.id]) else None)
  {
  }

  /** One entry keeps the invariant. */
  lemma FetchEntryKeepsInv(s: State, cfg: ServerConfig, resolveInvite: string -> GuildRef,
                           lookupGuild: string -> GuildLookup, now: Timestamp)
    requires Inv(s)
    ensures Inv(FetchEntry(s, cfg, resolveInvite, lookupGuild, now).state)
  {
    var guildId := ResolveGuildId(cfg, resolveInvite);
    if Truthy(guildId) && lookupGuild(guildId.value).Found? {
      var g, id := lookupGuild(guildId.value).guild, cfg.id;
      var voice := Initialized(s.voice, id, FreshVoice());
      assert VoiceLogBounded(voice);
      var t := TrackGuild(Initialized(s.analytics, id, FreshAnalytics())[id],
                          Initialized(s.activity, id, FreshActivity(now))[id], voice[id], g, now);
      CommitKeepsInv(s, id, now, t, LiveRecord(cfg, StatsOf(g), t.score, t.analytics, now));
    }
  }

  /** Committing bounded trackers and a cacheable record keeps the invariant. */
  lemma CommitKeepsInv(s: State, id: ServerId, now: Timestamp, t: Tracked, item: ServerItem)
    requires Inv(s)
    requires |t.analytics.healthHistory| <= HealthWindow && |t.voice.voiceEvents| <= VoiceEventWindow
    requires Cacheable(id, item)
    ensures Inv(Commit(s, id, now, t, item))
  {
    var r := Commit(s, id, now, t, item);
    assert HealthBounded(r.analytics);
    assert VoiceLogBounded(r.voice);
  }

  /** The whole cycle keeps the invariant. */
  lemma {:induction false} FetchEntriesKeepsInv(s: State, entries: seq<ServerConfig>, resolveInvite: string -> GuildRef,
                                                lookupGuild: string -> GuildLookup, now: Timestamp)
    requires Inv(s)
    ensures Inv(FetchEntries(s, entries, resolveInvite, lookupGuild, now).state)
    decreases |entries|
  {
    if entries != [] {
      var init := entries[..|entries| - 1];
      FetchEntriesKeepsInv(s, init, resolveInvite, lookupGuild, now);
      FetchEntryKeepsInv(FetchEntries(s, init, resolveInvite, lookupGuild, now).state, entries[|entries| - 1],
                         resolveInvite, lookupGuild, now);
    }
  }

  /** Trackers, once created, persist, and no peak watermark ever decreases during a cycle. */
  lemma {:induction false} FetchEntriesKeepsPeaks(s: State, entries: seq<ServerConfig>, resolveInvite: string -> GuildRef,
                                                  lookupGuild: string -> GuildLookup, now: Timestamp)
    ensures var t := FetchEntries(s, entries, resolveInvite, lookupGuild, now).state;
      && s.analytics.Keys <= t.analytics.Keys && s.activity.Keys <= t.activity.Keys && s.voice.Keys <= t.voice.Keys
      && s.cache.Keys <= t.cache.Keys
      && forall id :: id in s.voice ==> t.voice[id].peakVoiceUsers >= s.voice[id].peakVoiceUsers
    decreases |entries|
  {
    if entries != [] {
      var init := entries[..|entries| - 1];
      FetchEntriesKeepsPeaks(s, init, resolveInvite, lookupGuild, now);
      var mid := FetchEntries(s, init, resolveInvite, lookupGuild, now).state;
      var cfg := entries[|entries| - 1];
      var guildId := ResolveGuildId(cfg, resolveInvite);
      if Truthy(guildId) && lookupGuild(guildId.value).Found? {
        RefreshKeepsPeaks(mid, cfg, lookupGuild(guildId.value).guild, now);
      }
    }
  }

  /** A fetched entry only adds tracker and cache keys, and never lowers a peak watermark. */
  lemma RefreshKeepsPeaks(s: State, cfg: ServerConfig, g: GuildFacts, now: Timestamp)
    ensures var t := Refresh(s, cfg, g, now).state;
      && s.analytics.Keys <= t.analytics.Keys && s.activity.Keys <= t.activity.Keys && s.voice.Keys <= t.voice.Keys
      && s.cache.Keys <= t.cache.Keys
      && forall id :: id in s.voice ==> t.voice[id].peakVoiceUsers >= s.voice[id].peakVoiceUsers
  {
  }

  /**
   * The record of one entry carries the entry's id, and is restricted only
   * for a private entry whose guild did not resolve.
   */
  lemma FetchEntryItem(s: State, cfg: ServerConfig, resolveInvite: string -> GuildRef,
                       lookupGuild: string -> GuildLookup, now: Timestamp)
    requires Inv(s)
    ensures var r := FetchEntry(s, cfg, resolveInvite, lookupGuild, now);
      forall x :: x in ItemList(r.item) ==>
        x.descriptor.id == cfg.id && (x.Restricted? ==> cfg.private && !Truthy(ResolveGuildId(cfg, resolveInvite)))
  {
  }

  /**
   * Every record the cycle emits belongs to a configuration entry, and a
   * restricted record only to a private entry whose guild did not resolve.
   */
  lemma {:induction false} FetchEntriesOutput(s: State, entries: seq<ServerConfig>, resolveInvite: string -> GuildRef,
                                              lookupGuild: string -> GuildLookup, now: Timestamp)
    requires Inv(s)
    ensures var out := FetchEntries(s, entries, resolveInvite, lookupGuild, now).serverData;
      && |out| <= |entries|
      && forall x :: x in out ==>
           exists cfg :: cfg in entries && x.descriptor.id == cfg.id &&
             (x.Restricted? ==> cfg.private && !Truthy(ResolveGuildId(cfg, resolveInvite)))
    decreases |entries|
  {
    if entries != [] {
      var init, cfg := entries[..|entries| - 1], entries[|entries| - 1];
      FetchEntriesOutput(s, init, resolveInvite, lookupGuild, now);
      FetchEntriesKeepsInv(s, init, resolveInvite, lookupGuild, now);
      var prior := FetchEntries(s, init, resolveInvite, lookupGuild, now);
      var r := FetchEntry(prior.state, cfg, resolveInvite, lookupGuild, now);
      FetchEntryItem(prior.state, cfg, resolveInvite, lookupGuild, now);
      forall x | x in prior.serverData + ItemList(r.item)
        ensures exists c :: c in entries && x.descriptor.id == c.id &&
                  (x.Restricted? ==> c.private && !Truthy(ResolveGuildId(c, resolveInvite)))
      {
        if x in prior.serverData {
          var c :| c in init && x.descriptor.id == c.id &&
                   (x.Restricted? ==> c.private && !Truthy(ResolveGuildId(c, resolveInvite)));
          assert c in entries;
        } else {
          assert cfg in entries;
        }
      }
    }
  }

  /**
   * The two entries that always yield a record: a private entry whose guild
   * is unresolved yields its restricted record, and a resolved guild found in
   * the client cache yields a fresh live record with the guild's stats.
   */
  lemma FetchEntryYields(s: State, cfg: ServerConfig, resolveInvite: string -> GuildRef,
                         lookupGuild: string -> GuildLookup, now: Timestamp)
    ensures var r := FetchEntry(s, cfg, resolveInvite, lookupGuild, now);
      var guildId := ResolveGuildId(cfg, resolveInvite);
      && (cfg.private && !Truthy(guildId) ==> r.item == Some(RestrictedRecord(cfg, now)))
      && (Truthy(guildId) && lookupGuild(guildId.value).Found? ==>
            && r.item.Some? && r.item.value.Live? && r.item.value.descriptor == Describe(cfg)
            && r.item.value.stats == StatsOf(lookupGuild(guildId.value).guild)
            && r.item.value.lastFetched == now && r.item.value.error.None?)
  {
  }

  /**
   * Conversely to `FetchEntriesOutput`, the records cover the entries: every
   * private entry whose guild is unresolved contributes its restricted
   * record, and every entry whose guild is in the client cache a fresh live
   * record with that guild's stats.
   */
  lemma {:induction false} FetchEntriesComplete(s: State, entries: seq<ServerConfig>, resolveInvite: string -> GuildRef,
                                                lookupGuild: string -> GuildLookup, now: Timestamp)
    ensures var out := FetchEntries(s, entries, resolveInvite, lookupGuild, now).serverData;
      forall k :: 0 <= k < |entries| && entries[k].private && !Truthy(ResolveGuildId(entries[k], resolveInvite)) ==>
        RestrictedRecord(entries[k], now) in out
    ensures var out := FetchEntries(s, entries, resolveInvite, lookupGuild, now).serverData;
      forall k :: 0 <= k < |entries| && Truthy(ResolveGuildId(entries[k], resolveInvite)) &&
                  lookupGuild(ResolveGuildId(entries[k], resolveInvite).value).Found? ==>
        exists x :: x in out && x.Live? && x.descriptor == Describe(entries[k]) && x.lastFetched == now &&
                    x.error.None? && x.stats == StatsOf(lookupGuild(ResolveGuildId(entries[k], resolveInvite).value).guild)
    decreases |entries|
  {
    if entries != [] {
      var init, cfg := entries[..|entries| - 1], entries[|entries| - 1];
      FetchEntriesComplete(s, init, resolveInvite, lookupGuild, now);
      var prior := FetchEntries(s, init, resolveInvite, lookupGuild, now);
      var r := FetchEntry(prior.state, cfg, resolveInvite, lookupGuild, now);
      FetchEntryYields(prior.state, cfg, resolveInvite, lookupGuild, now);
      var out := prior.serverData + ItemList(r.item);
      assert FetchEntries(s, entries, resolveInvite, lookupGuild, now).serverData == out;
      forall k | 0 <= k < |entries| && entries[k].private && !Truthy(ResolveGuildId(entries[k], resolveInvite))
        ensures RestrictedRecord(entries[k], now) in out
      {
        if k < |init| {
          assert entries[k] == init[k];
        }
      }
      forall k | 0 <= k < |entries| && Truthy(ResolveGuildId(entries[k], resolveInvite)) &&
                 lookupGuild(ResolveGuildId(entries[k], resolveInvite).value).Found?
        ensures exists x :: x in out && x.Live? && x.descriptor == Describe(entries[k]) && x.lastFetched == now &&
                            x.error.None? && x.stats == StatsOf(lookupGuild(ResolveGuildId(entries[k], resolveInvite).value).guild)
      {
        if k < |init| {
          assert entries[k] == init[k];
          var x :| x in prior.serverData && x.Live? && x.descriptor == Describe(init[k]) && x.lastFetched == now &&
                   x.error.None? && x.stats == StatsOf(lookupGuild(ResolveGuildId(init[k], resolveInvite).value).guild);
          assert x in out;
        } else {
          assert r.item.value in out;
        }
      }
    }
  }

  /**
   * The cycle's global statistics broadcast is the last one emitted, counts
   * every emitted record and sums the counts of the live records only.
   */
  lemma FetchCycleGlobalStats(s: State, config: seq<ServerConfig>, resolveInvite: string -> GuildRef,
                              lookupGuild: string -> GuildLookup, now: Timestamp)
    ensures var r := FetchCycle(s, config, resolveInvite, lookupGuild, now);
      var out := r.serverData;
      && r.state.lastUpdate == now
      && |r.state.emitted| > 0
      && r.state.emitted[|r.state.emitted| - 1] ==
           GlobalStatsUpdate(|out|, Aggregate.SumMembers(Aggregate.LiveOnly(out)), Aggregate.SumOnline(Aggregate.LiveOnly(out)), now)
  {
    var out := FetchEntries(s, config, resolveInvite, lookupGuild, now).serverData;
    Aggregate.MemberTotalCountsLiveRecordsOnly(out);
    Aggregate.OnlineTotalCountsLiveRecordsOnly(out);
  }

  /** The cycle keeps the invariant: the cache never holds a restricted or error-annotated record. */
  lemma FetchCycleKeepsInv(s: State, config: seq<ServerConfig>, resolveInvite: string -> GuildRef,
                           lookupGuild: string -> GuildLookup, now: Timestamp)
    requires Inv(s)
    ensures Inv(FetchCycle(s, config, resolveInvite, lookupGuild, now).state)
  {
    FetchEntriesKeepsInv(s, config, resolveInvite, lookupGuild, now);
  }

  /**
   * A non-bot message on a tracked server counts once, records its author
   * and its channel, and touches nothing else; any other message changes nothing.
   */
  lemma MessageEffects(s: State, config: seq<ServerConfig>, msg: Message)
    ensures var t := OnMessage(s, config, msg);
      var id := TrackedId(config, msg.guild);
      if !msg.authorIsBot && id.Some? && id.value in s.activity then
        var a, b := s.activity[id.value], t.activity[id.value];
        && t.activity.Keys == s.activity.Keys
        && b.totalMessages == a.totalMessages + 1
        && b == RecordMessage(a, msg.authorId, msg.channelId)
        && b.activeUsers == a.activeUsers + {msg.authorId} && b.lastReset == a.lastReset
        && b.channelActivity.Keys == a.channelActivity.Keys + {msg.channelId}
        && b.channelActivity[msg.channelId] == (if msg.channelId in a.channelActivity then a.channelActivity[msg.channelId] else 0) + 1
        && (forall k :: k in a.channelActivity && k != msg.channelId ==> b.channelActivity[k] == a.channelActivity[k])
        && (forall k :: k in s.activity && k != id.value ==> t.activity[k] == s.activity[k])
        && t.cache == s.cache && t.analytics == s.analytics && t.voice == s.voice
        && t.emitted == s.emitted + [ActivityUpdate(id.value, b.totalMessages, |b.activeUsers|)]
      else t == s
  {
  }

  /**
   * A voice state change on a tracked server with a voice tracker appends
   * its classified event to the bounded log and broadcasts it; otherwise
   * nothing changes.
   */
  lemma VoiceStateEffects(s: State, config: seq<ServerConfig>, ev: VoiceStateChange, now: Timestamp)
    requires Inv(s)
    ensures Inv(OnVoiceState(s, config, ev, now))
    ensures var t := OnVoiceState(s, config, ev, now);
      var id := TrackedId(config, ev.guild);
      if id.Some? && id.value in s.voice then
        var log := t.voice[id.value].voiceEvents;
        && 0 < |log| <= VoiceEventWindow
        && log[|log| - 1] == VoiceEventOf(ev, now)
        && t.voice == s.voice[id.value := RecordVoiceEvent(s.voice[id.value], VoiceEventOf(ev, now))]
        && t.voice[id.value].peakVoiceUsers == s.voice[id.value].peakVoiceUsers
        && t.emitted == s.emitted + [VoiceUpdate(id.value, log[|log| - 1])]
        && t.cache == s.cache && t.analytics == s.analytics && t.activity == s.activity
      else t == s
  {
  }

  /**
   * A member event on a tracked server pushes one growth sample without
   * trimming: from a full window of 30 the history reaches 31 samples.
   */
  lemma MemberEventOverrunsWindow(s: State, config: seq<ServerConfig>, ev: MemberChange, kind: MemberEvent, now: Timestamp)
    requires Inv(s)
    requires TrackedId(config, ev.guild).Some?
    requires var id := TrackedId(config, ev.guild).value; id in s.analytics && |s.analytics[id].memberGrowth| == GrowthWindow
    ensures Inv(OnMemberChange(s, config, ev, kind, now))
    ensures var id := TrackedId(config, ev.guild).value;
      |OnMemberChange(s, config, ev, kind, now).analytics[id].memberGrowth| == GrowthWindow + 1
  {
  }

  /**
   * The synchronous part of `guildMemberAdd` and `guildMemberRemove`: a
   * tracked server is announced with the event's username, avatar and count,
   * and its growth history, when it has one, gains the event's sample; an
   * untracked guild changes nothing.
   */
  lemma MemberChangeEffects(s: State, config: seq<ServerConfig>, ev: MemberChange, kind: MemberEvent, now: Timestamp)
    requires Inv(s)
    ensures Inv(OnMemberChange(s, config, ev, kind, now))
    ensures var t := OnMemberChange(s, config, ev, kind, now);
      var id := TrackedId(config, ev.guild);
      if id.Some? then
        && t.emitted == s.emitted + [MemberUpdate(id.value, kind, ev.username, ev.avatar, ev.memberCount)]
        && (id.value in s.analytics ==>
              t.analytics == s.analytics[id.value := RecordMemberEvent(s.analytics[id.value], GrowthSample(now, ev.memberCount, Some(kind)))])
        && (id.value !in s.analytics ==> t.analytics == s.analytics)
        && t.cache == s.cache && t.activity == s.activity && t.voice == s.voice && t.lastUpdate == s.lastUpdate
      else t == s
  {
  }

  /**
   * Event handlers find a server by its configured guild id, so an event
   * from a guild reaches only an entry configured with that guild id; with
   * the shipped configuration, never one of the invite-resolved servers.
   */
  lemma EventsReachConfiguredGuildsOnly(whitelistGuild: GuildRef, badsideGuild: GuildRef, g: string)
    ensures var config := ServerConfigList(whitelistGuild, badsideGuild);
      var id := TrackedId(config, Id(g));
      id.Some? ==> exists i :: 0 <= i < |config| && config[i].id == id.value && config[i].private &&
                               config[i].guildId == Id(g)
  {
  }
}
