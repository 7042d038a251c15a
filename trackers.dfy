/**
 * What one event or one fetch does to a single tracker record: lazy
 * creation, the message counters, voice-event classification and the
 * bounded event log, the occupancy rebuilt from a fetched guild with its
 * peak watermark, and the growth and health windows.
 */
module Trackers {
  import opened Wrappers
  import opened Records
  import Windows

  /** Window lengths and view lengths of the source. */
  const GrowthWindow: nat := 30
  const HealthWindow: nat := 168
  const VoiceEventWindow: nat := 100
  const GrowthView: nat := 7
  const HealthTrendView: nat := 24

  // ---- lazy creation ----

  function FreshAnalytics(): Analytics {
    Analytics([], seq(24, _ => 0), [])
  }

  function FreshActivity(now: Timestamp): Activity {
    Activity(0, {}, map[], now)
  }

  function FreshVoice(): Voice {
    Voice(map[], 0, 0, [])
  }

  /** `if (!m.has(id)) m.set(id, initial)`. */
  function Initialized<V>(m: map<ServerId, V>, id: ServerId, initial: V): (r: map<ServerId, V>)
    ensures r.Keys == m.Keys + {id}
    ensures id in m ==> r == m
    ensures id !in m ==> r[id] == initial && forall k :: k in m ==> r[k] == m[k]
  {
    if id in m then m else m[id := initial]
  }

  /** Creating a record twice is creating it once: the second call changes nothing. */
  lemma InitializedIdempotent<V>(m: map<ServerId, V>, id: ServerId, initial: V, other: V)
    ensures Initialized(Initialized(m, id, initial), id, other) == Initialized(m, id, initial)
  {
  }

  // ---- messageCreate ----

  /** A message in `channel` by `author`: the per-channel count starts from 0. */
  function RecordMessage(a: Activity, author: UserId, channel: ChannelId): (r: Activity)
    ensures r.totalMessages == a.totalMessages + 1
    ensures r.activeUsers == a.activeUsers + {author}
    ensures r.channelActivity.Keys == a.channelActivity.Keys + {channel}
    ensures r.channelActivity[channel] == (if channel in a.channelActivity then a.channelActivity[channel] else 0) + 1
    ensures forall c :: c in a.channelActivity && c != channel ==> r.channelActivity[c] == a.channelActivity[c]
    ensures r.lastReset == a.lastReset
  {
    var counts := if channel in a.channelActivity then a.channelActivity else a.channelActivity[channel := 0];
    a.(totalMessages := a.totalMessages + 1,
       activeUsers := a.activeUsers + {author},
       channelActivity := counts[channel := counts[channel] + 1])
  }

  // ---- voiceStateUpdate ----

  /** join: no old channel and a new one; leave: an old one and no new one; move: every other case. */
  function ClassifyVoice(oldChannel: Option<string>, newChannel: Option<string>): (r: VoiceAction)
    ensures r == Join <==> oldChannel.None? && newChannel.Some?
    ensures r == Leave <==> oldChannel.Some? && newChannel.None?
    ensures r == Move <==> (oldChannel.Some? <==> newChannel.Some?)
  {
    if oldChannel.None? && newChannel.Some? then Join
    else if oldChannel.Some? && newChannel.None? then Leave
    else Move
  }

  /** `newState.channel?.name || oldState.channel?.name`. */
  function EventChannelName(oldChannel: Option<string>, newChannel: Option<string>): Option<string>
  {
    if Present(newChannel) then newChannel else oldChannel
  }

  /** Append a voice event and keep the 100 most recent; nothing else changes. */
  function RecordVoiceEvent(v: Voice, e: VoiceEvent): (r: Voice)
    ensures 0 < |r.voiceEvents| <= VoiceEventWindow
    ensures r.voiceEvents[|r.voiceEvents| - 1] == e
    ensures |v.voiceEvents| < VoiceEventWindow ==> r.voiceEvents == v.voiceEvents + [e]
    ensures forall i :: 0 <= i < |r.voiceEvents| - 1 ==>
      r.voiceEvents[i] == v.voiceEvents[|v.voiceEvents| - |r.voiceEvents| + 1 + i]
    ensures r.activeChannels == v.activeChannels && r.peakVoiceUsers == v.peakVoiceUsers
    ensures r.totalVoiceTime == v.totalVoiceTime
  {
    v.(voiceEvents := Windows.AppendTrim(v.voiceEvents, e, VoiceEventWindow))
  }

  // ---- voice channels of a fetched guild ----

  predicate IsVoice(c: Channel) {
    c.kind == 2
  }

  /** `channel.type === 2 && channel.members && channel.members.size > 0`. */
  predicate IsActiveVoice(c: Channel) {
    IsVoice(c) && |c.members| > 0
  }

  predicate UniqueIds(cs: seq<Channel>) {
    forall i, j :: 0 <= i < j < |cs| ==> cs[i].id != cs[j].id
  }

  function CountVoice(cs: seq<Channel>): nat {
    if cs == [] then 0 else CountVoice(cs[..|cs| - 1]) + (if IsVoice(cs[|cs| - 1]) then 1 else 0)
  }

  function CountActiveVoice(cs: seq<Channel>): nat {
    if cs == [] then 0 else CountActiveVoice(cs[..|cs| - 1]) + (if IsActiveVoice(cs[|cs| - 1]) then 1 else 0)
  }

  /** The members of all active voice channels together. */
  function TotalVoiceMembers(cs: seq<Channel>): nat {
    if cs == [] then 0
    else TotalVoiceMembers(cs[..|cs| - 1]) + (if IsActiveVoice(cs[|cs| - 1]) then |cs[|cs| - 1].members| else 0)
  }

  /** The active voice channels of a guild, in channel order. */
  function ActiveVoice(cs: seq<Channel>): (r: seq<Channel>)
    ensures |r| == CountActiveVoice(cs)
    ensures forall j :: 0 <= j < |r| ==> IsActiveVoice(r[j])
  {
    if cs == [] then []
    else
      var c := cs[|cs| - 1];
      ActiveVoice(cs[..|cs| - 1]) + (if IsActiveVoice(c) then [c] else [])
  }

  /** A channel is listed exactly when it is one of the guild's active voice channels. */
  lemma {:induction false} ActiveVoiceMembers(cs: seq<Channel>, c: Channel)
    ensures c in ActiveVoice(cs) <==> c in cs && IsActiveVoice(c)
  {
    if cs != [] {
      var init := cs[..|cs| - 1];
      ActiveVoiceMembers(init, c);
      assert cs == init + [cs[|cs| - 1]];
    }
  }

  /** Filtering commutes with concatenation, so the channels keep their relative order. */
  lemma {:induction false} ActiveVoiceAppend(a: seq<Channel>, b: seq<Channel>)
    ensures ActiveVoice(a + b) == ActiveVoice(a) + ActiveVoice(b)
    decreases |b|
  {
    if b == [] {
      assert a + b == a;
    } else {
      var init := b[..|b| - 1];
      ActiveVoiceAppend(a, init);
      assert (a + b)[..|a + b| - 1] == a + init;
    }
  }

  /** `channel.members.map(member => member.user.username)`. */
  function Usernames(ms: seq<Member>): seq<string>
  {
    seq(|ms|, i requires 0 <= i < |ms| => ms[i].username)
  }

  /** The `voiceData` entry of one channel: its name, size and usernames. */
  function VoiceDataOf(c: Channel): VoiceData {
    VoiceData(c.name, |c.members|, Usernames(c.members))
  }

  /**
   * The `voiceData` list: its j-th entry describes the j-th active voice
   * channel, so every entry has a positive member count, the length of its
   * member list.
   */
  function VoiceDataList(cs: seq<Channel>): (r: seq<VoiceData>)
    ensures |r| == |ActiveVoice(cs)| && forall j :: 0 <= j < |r| ==> r[j] == VoiceDataOf(ActiveVoice(cs)[j])
    ensures forall j :: 0 <= j < |r| ==> r[j].memberCount > 0 && r[j].memberCount == |r[j].members|
  {
    if cs == [] then []
    else
      var c := cs[|cs| - 1];
      VoiceDataList(cs[..|cs| - 1]) + (if IsActiveVoice(c) then [VoiceDataOf(c)] else [])
  }

  function SumMemberCounts(vd: seq<VoiceData>): nat {
    if vd == [] then 0 else vd[0].memberCount + SumMemberCounts(vd[1..])
  }

  lemma {:induction false} SumMemberCountsAppend(a: seq<VoiceData>, b: seq<VoiceData>)
    ensures SumMemberCounts(a + b) == SumMemberCounts(a) + SumMemberCounts(b)
    decreases |a|
  {
    if a == [] {
      assert a + b == b;
    } else {
      assert (a + b)[1..] == a[1..] + b;
      SumMemberCountsAppend(a[1..], b);
    }
  }

  /** `activeVoiceChannels.length <= voiceChannels.length <= channels.size`. */
  lemma {:induction false} VoiceCountsOrdered(cs: seq<Channel>)
    ensures CountActiveVoice(cs) <= CountVoice(cs) <= |cs|
  {
    if cs != [] {
      VoiceCountsOrdered(cs[..|cs| - 1]);
    }
  }

  /** `totalVoiceMembers` is the sum of the member counts listed in `voiceData`. */
  lemma {:induction false} TotalIsSumOfVoiceData(cs: seq<Channel>)
    ensures TotalVoiceMembers(cs) == SumMemberCounts(VoiceDataList(cs))
  {
    if cs != [] {
      var init, c := cs[..|cs| - 1], cs[|cs| - 1];
      TotalIsSumOfVoiceData(init);
      var tail := if IsActiveVoice(c) then [VoiceDataOf(c)] else [];
      SumMemberCountsAppend(VoiceDataList(init), tail);
    }
  }

  /**
   * The loop over the active voice channels that adds up `totalVoiceMembers`
   * and pushes one `voiceData` entry per channel.
   */
  method AnalyzeVoiceChannels(channels: seq<Channel>) returns (totalVoiceMembers: nat, voiceData: seq<VoiceData>)
    ensures totalVoiceMembers == TotalVoiceMembers(channels)
    ensures voiceData == VoiceDataList(channels)
  {
    totalVoiceMembers, voiceData := 0, [];
    for i := 0 to |channels|
      invariant totalVoiceMembers == TotalVoiceMembers(channels[..i])
      invariant voiceData == VoiceDataList(channels[..i])
    {
      var c := channels[i];
      assert channels[..i + 1][..i] == channels[..i];
      if IsActiveVoice(c) {
        totalVoiceMembers := totalVoiceMembers + |c.members|;
        voiceData := voiceData + [VoiceData(c.name, |c.members|, Usernames(c.members))];
      }
    }
    assert channels[..|channels|] == channels;
  }

  function OccupantOf(c: Channel): Occupant {
    Occupant(c.name, |c.members|, c.members)
  }

  /** `activeChannels` after `clear()` and one `set(channel.id, …)` per active voice channel. */
  function Occupancy(cs: seq<Channel>): map<ChannelId, Occupant> {
    if cs == [] then map[]
    else
      var c := cs[|cs| - 1];
      if IsActiveVoice(c) then Occupancy(cs[..|cs| - 1])[c.id := OccupantOf(c)] else Occupancy(cs[..|cs| - 1])
  }

  /** The occupancy map is keyed by exactly the ids of the active voice channels. */
  lemma {:induction false} OccupancyKeys(cs: seq<Channel>, k: ChannelId)
    ensures k in Occupancy(cs) <==> exists i :: 0 <= i < |cs| && IsActiveVoice(cs[i]) && cs[i].id == k
  {
    if cs != [] {
      var init := cs[..|cs| - 1];
      OccupancyKeys(init, k);
      if k in Occupancy(init) {
        var i :| 0 <= i < |init| && IsActiveVoice(init[i]) && init[i].id == k;
        assert cs[i] == init[i];
      }
      if exists i :: 0 <= i < |cs| && IsActiveVoice(cs[i]) && cs[i].id == k {
        var i :| 0 <= i < |cs| && IsActiveVoice(cs[i]) && cs[i].id == k;
        if i < |init| { assert init[i] == cs[i]; }
      }
    }
  }

  /** With distinct channel ids, every active voice channel is recorded with its own size and members. */
  lemma {:induction false} OccupancyValues(cs: seq<Channel>, i: nat)
    requires UniqueIds(cs) && i < |cs| && IsActiveVoice(cs[i])
    ensures cs[i].id in Occupancy(cs) && Occupancy(cs)[cs[i].id] == OccupantOf(cs[i])
  {
    var init := cs[..|cs| - 1];
    if i < |cs| - 1 {
      assert init[i] == cs[i];
      OccupancyValues(init, i);
    }
  }

  /** With distinct channel ids, `activeChannels.size` equals the number of active voice channels. */
  lemma {:induction false} OccupancySize(cs: seq<Channel>)
    requires UniqueIds(cs)
    ensures |Occupancy(cs)| == CountActiveVoice(cs)
  {
    if cs != [] {
      var init, c := cs[..|cs| - 1], cs[|cs| - 1];
      OccupancySize(init);
      if IsActiveVoice(c) {
        OccupancyKeys(init, c.id);
        assert c.id !in Occupancy(init);
      }
    }
  }

  /** The fetch-cycle voice update: occupancy rebuilt, `peak = max(peak, totalVoiceMembers)`. */
  function RebuildVoice(v: Voice, cs: seq<Channel>): (r: Voice)
    ensures r.activeChannels == Occupancy(cs)
    ensures r.peakVoiceUsers >= v.peakVoiceUsers && r.peakVoiceUsers >= TotalVoiceMembers(cs)
    ensures r.peakVoiceUsers == v.peakVoiceUsers || r.peakVoiceUsers == TotalVoiceMembers(cs)
    ensures r.voiceEvents == v.voiceEvents && r.totalVoiceTime == v.totalVoiceTime
  {
    var total := TotalVoiceMembers(cs);
    v.(activeChannels := Occupancy(cs),
       peakVoiceUsers := if v.peakVoiceUsers >= total then v.peakVoiceUsers else total)
  }

  // ---- growth and health windows ----

  /** The fetch-cycle growth append: push the sample, keep the 30 most recent. */
  function AppendGrowth(a: Analytics, sample: GrowthSample): (r: Analytics)
    ensures 0 < |r.memberGrowth| <= GrowthWindow
    ensures r.memberGrowth[|r.memberGrowth| - 1] == sample
    ensures |a.memberGrowth| < GrowthWindow ==> r.memberGrowth == a.memberGrowth + [sample]
    ensures forall i :: 0 <= i < |r.memberGrowth| - 1 ==>
      r.memberGrowth[i] == a.memberGrowth[|a.memberGrowth| - |r.memberGrowth| + 1 + i]
    ensures r.healthHistory == a.healthHistory && r.peakHours == a.peakHours
  {
    a.(memberGrowth := Windows.AppendTrim(a.memberGrowth, sample, GrowthWindow))
  }

  /** The fetch-cycle health append: push the sample, keep the 168 most recent. */
  function AppendHealth(a: Analytics, sample: HealthSample): (r: Analytics)
    ensures 0 < |r.healthHistory| <= HealthWindow
    ensures r.healthHistory[|r.healthHistory| - 1] == sample
    ensures |a.healthHistory| < HealthWindow ==> r.healthHistory == a.healthHistory + [sample]
    ensures forall i :: 0 <= i < |r.healthHistory| - 1 ==>
      r.healthHistory[i] == a.healthHistory[|a.healthHistory| - |r.healthHistory| + 1 + i]
    ensures r.memberGrowth == a.memberGrowth && r.peakHours == a.peakHours
  {
    a.(healthHistory := Windows.AppendTrim(a.healthHistory, sample, HealthWindow))
  }

  /**
   * The member join/leave append: a push WITHOUT the trim, so the growth
   * history grows by one whatever its length.
   */
  function RecordMemberEvent(a: Analytics, sample: GrowthSample): (r: Analytics)
    ensures |r.memberGrowth| == |a.memberGrowth| + 1
    ensures r.memberGrowth[..|a.memberGrowth|] == a.memberGrowth
    ensures r.memberGrowth[|a.memberGrowth|] == sample
    ensures r.healthHistory == a.healthHistory && r.peakHours == a.peakHours
  {
    a.(memberGrowth := a.memberGrowth + [sample])
  }

  /** The member counts of the growth samples, the input of the growth sub-score. */
  function Counts(samples: seq<GrowthSample>): seq<int>
  {
    seq(|samples|, i requires 0 <= i < |samples| => samples[i].count)
  }
}
