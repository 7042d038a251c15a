/**
 * The server's module-level stores as one object, and the code that
 * updates them in place: the lazy tracker initialisers, the voice tracker
 * rebuild, the growth and health pushes, the fetch loop and the four event
 * handlers. Every method is proved to move the stores exactly as the pure
 * specification in module Cycle says, and to keep its invariant.
 */
module Server {
  import opened Wrappers
  import opened Health
  import opened Records
  import opened Trackers
  import opened Cycle
  import Invite
  import Aggregate

  class Dashboard {
    /** `serverConfig`, fixed when the process starts. */
    const config: seq<ServerConfig>
    /** `serverDataCache`, `analyticsData`, `activityTracker`, `voiceTracker`, `lastUpdate`. */
    var cache: map<ServerId, ServerItem>
    var analytics: map<ServerId, Analytics>
    var activity: map<ServerId, Activity>
    var voice: map<ServerId, Voice>
    var lastUpdate: Timestamp
    /** Every `io.emit` so far, oldest first. */
    var emitted: seq<Broadcast>

    ghost function Snapshot(): State
      reads this
    {
      State(cache, analytics, activity, voice, lastUpdate, emitted)
    }

    ghost predicate Valid()
      reads this
    {
      Inv(Snapshot())
    }

    /** Empty stores; `lastUpdate` starts at the time the process starts. */
    constructor (config: seq<ServerConfig>, now: Timestamp)
      ensures this.config == config
      ensures Snapshot() == State(map[], map[], map[], map[], now, [])
      ensures Valid()
    {
      this.config := config;
      cache, analytics, activity, voice := map[], map[], map[], map[];
      lastUpdate, emitted := now, [];
    }

    // ---- lazy creation ----

    method InitializeAnalytics(id: ServerId)
      requires Valid()
      modifies this
      ensures Snapshot() == old(Snapshot()).(analytics := Initialized(old(analytics), id, FreshAnalytics()))
      ensures Valid()
    {
      if id !in analytics {
        analytics := analytics[id := FreshAnalytics()];
      }
    }

    method InitializeActivityTracker(id: ServerId, now: Timestamp)
      requires Valid()
      modifies this
      ensures Snapshot() == old(Snapshot()).(activity := Initialized(old(activity), id, FreshActivity(now)))
      ensures Valid()
    {
      if id !in activity {
        activity := activity[id := FreshActivity(now)];
      }
    }

    method InitializeVoiceTracker(id: ServerId)
      requires Valid()
      modifies this
      ensures Snapshot() == old(Snapshot()).(voice := Initialized(old(voice), id, FreshVoice()))
      ensures Valid()
    {
      if id !in voice {
        voice := voice[id := FreshVoice()];
      }
    }

    // ---- the steps of a successful fetch ----

    /**
     * `activeChannels.clear()`, one `set` per active voice channel, then
     * `peakVoiceUsers = Math.max(peakVoiceUsers, totalVoiceMembers)`.
     */
    method RebuildVoiceTracker(id: ServerId, channels: seq<Channel>, totalVoiceMembers: nat)
      requires Valid() && id in voice
      requires totalVoiceMembers == TotalVoiceMembers(channels)
      modifies this
      ensures Snapshot() == old(Snapshot()).(voice := old(voice)[id := RebuildVoice(old(voice)[id], channels)])
      ensures Valid()
    {
      var track := voice[id];
      var occupancy: map<ChannelId, Occupant> := map[];
      for i := 0 to |channels|
        invariant occupancy == Occupancy(channels[..i])
      {
        var c := channels[i];
        assert channels[..i + 1][..i] == channels[..i];
        if IsActiveVoice(c) {
          occupancy := occupancy[c.id := Occupant(c.name, |c.members|, c.members)];
        }
      }
      assert channels[..|channels|] == channels;
      var peak := if track.peakVoiceUsers >= totalVoiceMembers then track.peakVoiceUsers else totalVoiceMembers;
      voice := voice[id := track.(activeChannels := occupancy, peakVoiceUsers := peak)];
    }

    /** `memberGrowth.push(sample)`, then `slice(-30)` when longer than 30. */
    method AppendMemberGrowth(id: ServerId, sample: GrowthSample)
      requires Valid() && id in analytics
      modifies this
      ensures Snapshot() == old(Snapshot()).(analytics := old(analytics)[id := AppendGrowth(old(analytics)[id], sample)])
      ensures Valid()
    {
      var a := analytics[id];
      var growth := a.memberGrowth + [sample];
      if |growth| > GrowthWindow {
        growth := growth[|growth| - GrowthWindow..];
      }
      analytics := analytics[id := a.(memberGrowth := growth)];
    }

    /** `healthHistory.push(sample)`, then `slice(-168)` when longer than 168. */
    method AppendHealthSample(id: ServerId, sample: HealthSample)
      requires Valid() && id in analytics
      modifies this
      ensures Snapshot() == old(Snapshot()).(analytics := old(analytics)[id := AppendHealth(old(analytics)[id], sample)])
      ensures Valid()
    {
      var a := analytics[id];
      var history := a.healthHistory + [sample];
      if |history| > HealthWindow {
        history := history[|history| - HealthWindow..];
      }
      analytics := analytics[id := a.(healthHistory := history)];
    }

    /**
     * The tracker updates of a successful fetch, once the trackers exist:
     * analyse the voice channels, rebuild the occupancy, push the growth
     * sample, score the guild and push the health sample.
     */
    method UpdateTrackers(id: ServerId, g: GuildFacts, now: Timestamp)
      returns (totalVoiceMembers: nat, voiceData: seq<VoiceData>, score: HealthScore)
      requires Valid() && id in analytics && id in activity && id in voice
      modifies this
      ensures var t := TrackGuild(old(analytics)[id], old(activity)[id], old(voice)[id], g, now);
        && Snapshot() == old(Snapshot()).(analytics := old(analytics)[id := t.analytics],
                                          voice := old(voice)[id := t.voice])
        && score == t.score
      ensures totalVoiceMembers == TotalVoiceMembers(g.channels) && voiceData == VoiceDataList(g.channels)
      ensures Valid()
    {
      totalVoiceMembers, voiceData := AnalyzeVoiceChannels(g.channels);
      RebuildVoiceTracker(id, g.channels, totalVoiceMembers);
      AppendMemberGrowth(id, GrowthSample(now, g.memberCount, None));
      score := ScoreGuild(g, analytics[id].memberGrowth, activity[id], voice[id]);
      AppendHealthSample(id, HealthSample(now, OverallOf(score)));
    }

    /** The tracker half of a successful fetch: create the three trackers, then update them. */
    method TrackEntry(id: ServerId, g: GuildFacts, now: Timestamp)
      returns (totalVoiceMembers: nat, voiceData: seq<VoiceData>, score: HealthScore)
      requires Valid()
      modifies this
      ensures var analytics0 := Initialized(old(analytics), id, FreshAnalytics());
        var activity0 := Initialized(old(activity), id, FreshActivity(now));
        var voice0 := Initialized(old(voice), id, FreshVoice());
        var t := TrackGuild(analytics0[id], activity0[id], voice0[id], g, now);
        && Snapshot() == old(Snapshot()).(analytics := analytics0[id := t.analytics], activity := activity0,
                                          voice := voice0[id := t.voice])
        && score == t.score
      ensures totalVoiceMembers == TotalVoiceMembers(g.channels) && voiceData == VoiceDataList(g.channels)
      ensures Valid()
    {
      InitializeAnalytics(id);
      InitializeActivityTracker(id, now);
      InitializeVoiceTracker(id);
      totalVoiceMembers, voiceData, score := UpdateTrackers(id, g, now);
    }

    /** `serverDataCache.set(id, item)` and the `serverUpdate` broadcast. */
    method Publish(id: ServerId, item: ServerItem)
      requires Valid() && Cacheable(id, item)
      modifies this
      ensures Snapshot() == old(Snapshot()).(cache := old(cache)[id := item],
                                             emitted := old(emitted) + [ServerUpdate(id, item)])
      ensures Valid()
    {
      cache := cache[id := item];
      emitted := emitted + [ServerUpdate(id, item)];
    }

    /** The success branch of one entry: trackers, record, cache write, broadcast. */
    method RefreshEntry(cfg: ServerConfig, g: GuildFacts, now: Timestamp) returns (item: ServerItem)
      requires Valid()
      modifies this
      ensures var r := Refresh(old(Snapshot()), cfg, g, now); Snapshot() == r.state && Some(item) == r.item
      ensures Valid()
    {
      ghost var s0 := Snapshot();
      var id := cfg.id;
      ghost var t := TrackGuild(Initialized(analytics, id, FreshAnalytics())[id],
                                Initialized(activity, id, FreshActivity(now))[id],
                                Initialized(voice, id, FreshVoice())[id], g, now);
      var totalVoiceMembers, voiceData, score := TrackEntry(id, g, now);
      var stats := GuildStats(g.icon, g.memberCount, |g.channels|, g.onlineCount, CountVoice(g.channels),
                              CountActiveVoice(g.channels), totalVoiceMembers, voiceData,
                              g.premiumTier, g.premiumSubscriptionCount.GetOr(0), g.createdTimestamp, g.features);
      assert stats == StatsOf(g);
      item := LiveRecord(cfg, stats, score, analytics[id], now);
      Publish(id, item);
      assert Snapshot() == Commit(s0, id, now, t, item);
    }

    /** One pass of the `for (const serverInfo of serverConfig)` loop body. */
    method FetchEntry(cfg: ServerConfig, resolveInvite: string -> GuildRef, lookupGuild: string -> GuildLookup,
                      now: Timestamp) returns (item: Option<ServerItem>)
      requires Valid()
      modifies this
      ensures var r := Cycle.FetchEntry(old(Snapshot()), cfg, resolveInvite, lookupGuild, now);
        Snapshot() == r.state && item == r.item
      ensures Valid()
    {
      var guildId := cfg.guildId;
      if !Truthy(guildId) && Present(cfg.invite) {
        var inviteCode := Invite.LastSegment(cfg.invite.value);
        guildId := resolveInvite(inviteCode);
      }
      if Truthy(guildId) {
        match lookupGuild(guildId.value)
        case Found(g) =>
          var live := RefreshEntry(cfg, g, now);
          item := Some(live);
        case NotCached =>
          item := if cfg.id in cache then Some(cache[cfg.id]) else None;
        case Raised(msg) =>
          item := if cfg.id in cache then Some(cache[cfg.id].(error := Some(msg))) else None;
      } else if cfg.private {
        item := Some(RestrictedRecord(cfg, now));
      } else {
        item := None;
      }
    }

    /** `fetchServerData`: every configured entry in order, then `lastUpdate` and `globalStatsUpdate`. */
    method FetchServerData(resolveInvite: string -> GuildRef, lookupGuild: string -> GuildLookup, now: Timestamp)
      returns (serverData: seq<ServerItem>)
      requires Valid()
      modifies this
      ensures var r := FetchCycle(old(Snapshot()), config, resolveInvite, lookupGuild, now);
        Snapshot() == r.state && serverData == r.serverData
      ensures Valid()
    {
      ghost var s0 := Snapshot();
      serverData := [];
      for i := 0 to |config|
        invariant Valid()
        invariant Snapshot() == FetchEntries(s0, config[..i], resolveInvite, lookupGuild, now).state
        invariant serverData == FetchEntries(s0, config[..i], resolveInvite, lookupGuild, now).serverData
      {
        assert config[..i + 1][..i] == config[..i];
        var item := FetchEntry(config[i], resolveInvite, lookupGuild, now);
        if item.Some? {
          serverData := serverData + [item.value];
        }
      }
      assert config[..|config|] == config;
      lastUpdate := now;
      emitted := emitted + [GlobalStatsUpdate(|serverData|, Aggregate.MemberTotal(serverData),
                                              Aggregate.OnlineTotal(serverData), now)];
    }

    // ---- event handlers ----

    /** `client.on('messageCreate')`. */
    method OnMessageCreate(msg: Message)
      requires Valid()
      modifies this
      ensures Snapshot() == OnMessage(old(Snapshot()), config, msg)
      ensures Valid()
    {
      if msg.authorIsBot {
        return;
      }
      var serverId := FindServerId(config, msg.guild);
      if serverId.Some? && serverId.value != "" && serverId.value in activity {
        var id := serverId.value;
        var a := activity[id];
        var counts := a.channelActivity;
        if msg.channelId !in counts {
          counts := counts[msg.channelId := 0];
        }
        counts := counts[msg.channelId := counts[msg.channelId] + 1];
        a := a.(totalMessages := a.totalMessages + 1, activeUsers := a.activeUsers + {msg.authorId},
                channelActivity := counts);
        activity := activity[id := a];
        emitted := emitted + [ActivityUpdate(id, a.totalMessages, |a.activeUsers|)];
      }
    }

    /** `client.on('voiceStateUpdate')`: push the event, `slice(-100)`, broadcast the last event. */
    method OnVoiceStateUpdate(ev: VoiceStateChange, now: Timestamp)
      requires Valid()
      modifies this
      ensures Snapshot() == OnVoiceState(old(Snapshot()), config, ev, now)
      ensures Valid()
    {
      var serverId := FindServerId(config, ev.guild);
      if serverId.None? || serverId.value == "" {
        return;
      }
      var id := serverId.value;
      if id !in voice {
        return;
      }
      var action := if ev.oldChannel.None? && ev.newChannel.Some? then Join
                    else if ev.oldChannel.Some? && ev.newChannel.None? then Leave
                    else Move;
      var channel := if Present(ev.newChannel) then ev.newChannel else ev.oldChannel;
      var e := VoiceEvent(ev.memberId, ev.username, action, channel, now);
      AppendVoiceEvent(id, e);
      var events := voice[id].voiceEvents;
      emitted := emitted + [VoiceUpdate(id, events[|events| - 1])];
    }

    /** `voiceEvents.push(e)`, then `slice(-100)` when longer than 100. */
    method AppendVoiceEvent(id: ServerId, e: VoiceEvent)
      requires Valid() && id in voice
      modifies this
      ensures Snapshot() == old(Snapshot()).(voice := old(voice)[id := RecordVoiceEvent(old(voice)[id], e)])
      ensures Valid()
    {
      var track := voice[id];
      var events := track.voiceEvents + [e];
      if |events| > VoiceEventWindow {
        events := events[|events| - VoiceEventWindow..];
      }
      voice := voice[id := track.(voiceEvents := events)];
    }

    /** The part of `guildMemberAdd` and `guildMemberRemove` before their fetch: push without a trim. */
    method RecordMemberChange(ev: MemberChange, kind: MemberEvent, now: Timestamp)
      requires Valid()
      modifies this
      ensures Snapshot() == OnMemberChange(old(Snapshot()), config, ev, kind, now)
      ensures Valid()
    {
      var serverId := FindServerId(config, ev.guild);
      if serverId.Some? && serverId.value != "" {
        var id := serverId.value;
        if id in analytics {
          var a := analytics[id];
          analytics := analytics[id := a.(memberGrowth := a.memberGrowth + [GrowthSample(now, ev.memberCount, Some(kind))])];
        }
        emitted := emitted + [MemberUpdate(id, kind, ev.username, ev.avatar, ev.memberCount)];
      }
    }

    /** `client.on('guildMemberAdd')`: record the join, then run a whole fetch cycle. */
    method OnGuildMemberAdd(ev: MemberChange, resolveInvite: string -> GuildRef, lookupGuild: string -> GuildLookup,
                            now: Timestamp) returns (serverData: seq<ServerItem>)
      requires Valid()
      modifies this
      ensures var r := FetchCycle(OnMemberChange(old(Snapshot()), config, ev, MemberJoin, now), config,
                                  resolveInvite, lookupGuild, now);
        Snapshot() == r.state && serverData == r.serverData
      ensures Valid()
    {
      RecordMemberChange(ev, MemberJoin, now);
      serverData := FetchServerData(resolveInvite, lookupGuild, now);
    }

    /** `client.on('guildMemberRemove')`: record the departure, then run a whole fetch cycle. */
    method OnGuildMemberRemove(ev: MemberChange, resolveInvite: string -> GuildRef, lookupGuild: string -> GuildLookup,
                               now: Timestamp) returns (serverData: seq<ServerItem>)
      requires Valid()
      modifies this
      ensures var r := FetchCycle(OnMemberChange(old(Snapshot()), config, ev, MemberLeave, now), config,
                                  resolveInvite, lookupGuild, now);
        Snapshot() == r.state && serverData == r.serverData
      ensures Valid()
    {
      RecordMemberChange(ev, MemberLeave, now);
      serverData := FetchServerData(resolveInvite, lookupGuild, now);
    }
  }
}
