# Discord server dashboard: tracking and scoring core

This project models the in-process state of the dashboard server (`server.js`) and proves properties of it. The state consists of:

- the snapshot cache;
- three lazily created per-server trackers (analytics, activity, voice);
- the last-update stamp;
- the log of socket broadcasts.

It also models the code that changes this state:

- the periodic fetch cycle `fetchServerData`;
- the four Discord event handlers: `messageCreate`, `voiceStateUpdate`, `guildMemberAdd` and `guildMemberRemove`;
- the pure `calculateHealthScore`.

The model is in two layers.

- **Specification (module `Cycle` and the modules below it).** Pure functions describe what one fetch entry, one fetch cycle and one event do to a `State` value. Lemmas prove:
  - the window bounds, and that the seven-sample and 24-sample views keep the most recent entries in order;
  - the occupancy rebuild is exact, and the peak watermark never decreases;
  - the error paths leave the state unchanged;
  - restricted "Private" records never reach the cache or the numeric totals;
  - the member events overrun the 30-sample growth window.
- **Imperative layer (module `Server`, class `Dashboard`).** The module-level maps of `server.js` are fields. `initialize*`, the voice rebuild, the push-and-trim steps, the fetch loop and the handlers are methods with `modifies this`. Each method is proved to move the fields exactly as the specification function says (`Snapshot() == Spec(old(Snapshot()))`), and to keep `Valid()`.

Modules:

| module | models |
|---|---|
| `Wrappers` | `Option` |
| `Windows` | `slice(-n)` and the `push`-then-`slice(-n)` idiom |
| `Invite` | `invite.split('/').pop()` |
| `Health` | `calculateHealthScore` over `real` |
| `Records` | the configuration, the Discord facts, the tracker records, the emitted records, the events and broadcasts |
| `Trackers` | what one event or fetch does to one tracker record |
| `Aggregate` | the global `reduce` totals |
| `Cycle` | the whole state, one fetch entry, the fetch cycle, the handlers |
| `Server` | the `Dashboard` class |

JavaScript details written out in the model:

- A configured guild id is `GuildRef = Null | Undefined | Id(s)`, so that `null`, an unset environment variable and a string stay distinct.
- `find(s => s.guildId === g)` compares these values exactly. `if (guildId)` and `if (serverId)` test JavaScript truthiness, which means a non-empty string.
- `Math.round` is `(x + 0.5).Floor`.
- A record's count is `Num(n)` or `Private`. The `typeof … === 'number'` test of the totals becomes `Num?`.

Two Discord calls are parameters of the fetch:

- the invite lookup, `string -> GuildRef`;
- the guild-cache lookup, `string -> GuildLookup`. It returns `Found(facts)`, `NotCached`, or `Raised(message)` for a lookup that throws.

Timestamps are a single opaque `now` per call.

Behaviour of the code that a reader might not expect, and that the model keeps:

- **Engagement.** The comment at `server.js:185` gives engagement the range 0-100, but line 188 multiplies the online ratio by 60 and the voice ratio by 40 and then by 100. For ratios in [0, 1] engagement therefore lies in [0, 10000], and the overall score can exceed 100. Take a guild with 1000 members, 300 online, 10 channels, 2 active voice channels, 500 messages and one growth sample: its engagement is 2600 and its overall score 809. Weights of 0.6 and 0.4, as the range in the comment suggests, would give 26 and 37 (`Health.WorkedExample`).
- **Growth default.** The default of 50 applies when the whole `memberGrowth` history has at most one sample (`server.js:168`), not when the seven-sample window is short.
- **Retention.** Retention is the constant 1000/11 (`server.js:191`), which rounds to 91.
- **"move".** A voice event with neither an old nor a new channel counts as a "move" (`server.js:752-754`).
- **Activity reset.** Nothing in the code ever resets the activity counters.
- **Failed entry.** A failed entry with no cached copy emits nothing and adds nothing to the output (`server.js:388-394`).
- **Event lookup.** The event handlers look a server up by its configured guild id only. The three invite-based servers have guild id `null`, so they never receive message, voice or member tracking, even after their guild id has been resolved by invite. Only the two private entries can, when their environment variable is set (`Cycle.EventsReachConfiguredGuildsOnly`).

## Model

| member | source | states |
|---|---|---|
| Windows.Last | server.js:347-348 | `slice(-n)`: the result has min(n, length) elements and is the suffix of the input, in order |
| Windows.AppendTrim | server.js:296-304 | push then `slice(-n)`: length is old length + 1, capped at n; the new element is last; below the cap it is a plain append; otherwise the oldest elements are dropped and the rest keep their order |
| Windows.AppendTrimSlides | server.js:315-322 | trimming after each push equals taking the last n of the full history: AppendTrim(Last(h, n), x, n) == Last(h + [x], n) |
| Windows.AppendAllIsWindow | server.js:750-762 | any sequence of push-and-trim steps leaves exactly the n most recent elements of the whole history, in arrival order |
| Windows.HundredAndOneAppends | server.js:759-762 | after 101 voice events, the log holds the last 100 and the first was evicted |
| Invite.LastSegment | server.js:232 | `split('/').pop()`: the result is a suffix of the invite with no '/', preceded by '/' or by the start of the string |
| Invite.LastSegmentUnique | server.js:232 | those three properties determine the invite code uniquely |
| Invite.FirstInviteCode | server.js:59 | the configured invite `https://discord.gg/uhsnuMdx69` yields the code `uhsnuMdx69` |
| Health.Round | server.js:200-205 | `Math.round` on a finite value: the integer within half a unit below and half a unit above, halves rounded up |
| Health.GrowthRate | server.js:169-173 | the reduce over the consecutive differences of the recent counts is 0 for an empty window and otherwise telescopes to the last count minus the first |
| Health.GrowthScore | server.js:167-177 | 50 without a history of at least two samples; otherwise clamp(50 + (last − first of the final seven counts)/memberCount·1000, 0, 100); always in [0, 100] |
| Health.ActivityScore | server.js:179-183 | 0 without an activity record; otherwise in [0, 100], equal to 100 exactly when messages ≥ 5·members, and 20·messages/members below that |
| Health.EngagementScore | server.js:185-188 | at least 6000·online/members; at most 10000 when online ≤ members and active voice channels ≤ channels |
| Health.RetentionScore | server.js:190-191 | min(100, m/(1.1·m)·100) is the constant 1000/11 for every m > 0 |
| Health.Weighted | server.js:193-197 | the weighted reduce (.25, .3, .3, .15, summing to 1) lies between the smallest and the largest sub-score |
| Health.CalculateHealthScore | server.js:159-208 | with members and channels present, the result is a finite score |
| Health.HealthScoreBounds | server.js:159-208 | growth and activity sub-scores in [0, 100]; retention 91; engagement ≥ 0 and ≤ 10000 for sane ratios; defaults 50 and 0 for missing data; overall is the rounded weighted sum, and is ≤ 99 when engagement ≤ 100; the breakdown is the four sub-scores, each rounded |
| Health.WorkedExample | server.js:186-188 | a guild with 1000 members, 300 online, 10 channels, 2 active voice channels, 500 messages and one growth sample scores overall 809 with breakdown 50/10/2600/91: the 60/40 factors give engagement far above the 0-100 of the comment at line 185 |
| Records.ServerConfigList | server.js:54-112 | five entries with distinct ids; an entry is private exactly when it has no invite; every public entry has guild id `null` |
| Records.FindServerId | server.js:718 | `find(s => s.guildId === g)?.id`: None exactly when no entry has guild id g; otherwise the id of the first entry that does |
| Trackers.Initialized | server.js:122-156 | `if (!m.has(id)) m.set(id, fresh)`: the keys gain id; an existing record is left untouched; otherwise the fresh record is added and every other key is kept |
| Trackers.InitializedIdempotent | server.js:122-133 | initialising twice is initialising once |
| Trackers.RecordMessage | server.js:720-729 | totalMessages + 1; the author joins the set of active users; the channel's count rises by 1, from 0 for a new channel; the other channels and lastReset are unchanged |
| Trackers.ClassifyVoice | server.js:753-754 | join iff no old channel and a new one; leave iff an old one and no new one; move iff both or neither |
| Trackers.RecordVoiceEvent | server.js:750-762 | the log ends with the new event and has 1..100 entries; below 100 it is a plain append; otherwise the oldest entries are evicted first; occupancy, peak and voice time are unchanged |
| Trackers.ActiveVoice | server.js:261-264 | the two filters: CountActiveVoice many channels, each a voice channel with at least one member |
| Trackers.ActiveVoiceMembers | server.js:261-264 | a channel is listed exactly when it is a voice channel of the guild with at least one member |
| Trackers.ActiveVoiceAppend | server.js:261-264 | filtering commutes with concatenation, so the active channels keep their channel order |
| Trackers.VoiceCountsOrdered | server.js:261-264 | active voice channels ≤ voice channels ≤ all channels |
| Trackers.VoiceDataList | server.js:269-277 | one entry per active voice channel, in channel order: entry j holds the name, the member count and the usernames (`members.map(m => m.user.username)`, in member order) of the j-th active voice channel; every count is positive and equals the length of its member list |
| Trackers.TotalIsSumOfVoiceData | server.js:268-277 | `totalVoiceMembers` is the sum of the member counts listed in `voiceData` |
| Trackers.AnalyzeVoiceChannels | server.js:268-277 | the `forEach` loop yields the total of active voice members and the `voiceData` list of the reference functions |
| Trackers.OccupancyKeys | server.js:280-287 | after `clear()` and the `set` calls, a channel id is a key exactly when some active voice channel has that id |
| Trackers.OccupancyValues | server.js:282-286 | with distinct channel ids, each active voice channel is recorded with its own name, size and members |
| Trackers.OccupancySize | server.js:280-287 | with distinct channel ids, `activeChannels.size` is the number of active voice channels |
| Trackers.RebuildVoice | server.js:280-289 | occupancy rebuilt from the channels; peak ≥ the old peak and ≥ the current total, and equal to one of them; events and voice time unchanged |
| Trackers.AppendGrowth | server.js:296-304 | growth history of 1..30 samples ending with the new one; the most recent kept in order; health history unchanged |
| Trackers.AppendHealth | server.js:315-322 | health history of 1..168 samples ending with the new one; the most recent kept in order; growth history unchanged |
| Trackers.RecordMemberEvent | server.js:779-783 | the member-event push without a trim: the growth history grows by exactly one sample and keeps all earlier ones |
| Aggregate.MemberTotal | server.js:403-404 | the `totalMembers` reduce: every live record's member count is part of the total, and a list of restricted records totals 0 |
| Aggregate.OnlineTotal | server.js:405-406 | the `totalOnline` reduce: every live record's online count is part of the total, and a list of restricted records totals 0 |
| Aggregate.LiveOnly | server.js:403-406 | the records with numeric counts: exactly the live records of the list |
| Aggregate.LiveOnlyMultiplicity | server.js:403-406 | a live record occurs in the filtered list exactly as often as in the list; a restricted one never |
| Aggregate.LiveOnlyAppend | server.js:403-406 | filtering commutes with concatenation, so the live records keep their order |
| Aggregate.LiveOnlySnoc | server.js:403-406 | extending the list extends the filtered list by the new record exactly when it is live |
| Aggregate.MemberTotalCountsLiveRecordsOnly | server.js:403-404 | the `totalMembers` reduce equals the sum of member counts over the live records only |
| Aggregate.OnlineTotalCountsLiveRecordsOnly | server.js:405-406 | the `totalOnline` reduce equals the sum of online counts over the live records only |
| Cycle.ResolveGuildId | server.js:229-234 | a truthy configured guild id is used as it is; a falsy one with a non-empty invite is replaced by the invite lookup of the invite's last path segment; without an invite the configured value is kept, and the lookup is made in no other case |
| Cycle.ScoreGuild | server.js:307-312 | the score of a fetched guild is a finite score exactly when the guild has members and channels, and NaN (`NotFinite`) otherwise; it is never withheld; a finite score is `calculateHealthScore` of the guild's counts, the counts of the growth history just extended, the activity record's message total and the number of occupied voice channels just rebuilt |
| Cycle.StatsOf | server.js:324-346 | the counts of a fetched guild: active voice channels ≤ voice channels ≤ channels; `voiceData` has one entry per active voice channel and its counts add up to `totalVoiceMembers`; members, online and channels as fetched; the voice counts, the total and `voiceData` are those of the guild's own channel list (`CountVoice`, `CountActiveVoice`, `TotalVoiceMembers`, `VoiceDataList`); icon, boost level, boost count (`premiumSubscriptionCount \|\| 0`), creation time and features copied from the guild |
| Cycle.TrackGuild | server.js:280-322 | a fetched guild's tracker updates in source order: occupancy rebuilt, the peak `Math.max` of the old peak and the voice total (at least both, and equal to one of them), a growth sample appended in the 30-window with the older samples kept in order, the score computed over the new growth history and rebuilt occupancy, its overall value appended in the 168-window, again keeping the older samples in order |
| Cycle.LiveRecord | server.js:324-351 | a record fit for the cache under the entry's id, with the entry's descriptor, the stats and the score, and views of at most 7 growth and 24 health samples that end with the newest sample |
| Cycle.Commit | server.js:353-360 | the record cached under its id; the id's trackers stored; every other server's trackers and an existing activity record unchanged; lastUpdate unchanged; one `serverUpdate` appended to the log |
| Cycle.FetchEntry | server.js:228-394 | only a resolved guild found in the client cache changes the state; an unresolved entry yields a record exactly when it is private; lastUpdate unchanged; at most one broadcast appended, the earlier log kept |
| Cycle.FetchEntryItem | server.js:228-394 | an entry's record carries the entry's id, and is restricted only for a private entry whose guild did not resolve |
| Cycle.RefreshKeepsPeaks | server.js:239-360 | a fetched entry only adds tracker and cache keys and lowers no peak watermark |
| Cycle.FetchEntries | server.js:227-395 | at most one record per entry; lastUpdate unchanged; the log keeps its earlier broadcasts and gains at most one per entry |
| Cycle.FetchCycle | server.js:223-411 | lastUpdate becomes the cycle's time; at most one record per entry; the log keeps its earlier broadcasts and ends with a `globalStatsUpdate` whose server total is the number of records |
| Cycle.RefreshEffects | server.js:239-360 | a fetched entry leaves all three trackers present and both windows bounded, with the new samples last; occupancy is exact; the peak is `Math.max` of the old peak and the voice total (the total for a new tracker); activity untouched; the record cached under its id without an error; the views are the last 7 and 24 samples; one `serverUpdate` emitted |
| Cycle.Refresh | server.js:239-360 | a found guild's entry yields a cacheable record with the entry's descriptor, the guild's stats and the fetch time, cached under the entry's id and broadcast once; lastUpdate untouched (the tracker effects are in Cycle.RefreshEffects) |
| Cycle.RestrictedRecord | server.js:369-386 | the record pushed for a private entry without a guild: the entry's id, name, role, category, language and description, invite null, private, 'Private' counts, overall 0, fetch time, no error (Cycle.RestrictedEntry: the only case that yields it) |
| Cycle.RestrictedEntry | server.js:369-386 | a private entry whose guild does not resolve yields a record with 'Private' counts, no invite and overall 0, and leaves the state unchanged, so the cache never sees it |
| Cycle.RaisedEntry | server.js:388-394 | a throwing lookup leaves the state unchanged; it yields the cached copy with the error attached when one exists, and nothing otherwise |
| Cycle.MissingGuildEntry | server.js:362-368 | a guild missing from the client cache yields the cached copy, if any, and leaves the state unchanged |
| Cycle.CommitKeepsInv | server.js:353-354 | storing bounded trackers and a cacheable record keeps the invariant |
| Cycle.FetchEntryKeepsInv | server.js:227-395 | each entry keeps the invariant: health history ≤ 168, voice log ≤ 100, cache holds only live records without an error under their own id |
| Cycle.FetchEntriesKeepsInv | server.js:226-395 | the whole loop keeps the invariant |
| Cycle.FetchEntriesKeepsPeaks | server.js:289 | during a cycle, tracker and cache keys only grow and no peak watermark decreases |
| Cycle.FetchEntriesOutput | server.js:226-395 | at most one record per entry; every record belongs to a configured entry; a restricted record belongs only to a private entry whose guild did not resolve |
| Cycle.FetchEntryYields | server.js:228-386 | a private entry whose guild did not resolve yields exactly its restricted record; a resolved guild found in the client cache yields a live record with the entry's descriptor, the guild's stats, the fetch time and no error |
| Cycle.FetchEntriesComplete | server.js:226-395 | conversely, every private entry whose guild did not resolve contributes its restricted record to the output, and every entry whose guild is in the client cache a live record with its descriptor, the guild's stats, the fetch time and no error |
| Cycle.FetchCycleGlobalStats | server.js:397-408 | the cycle sets lastUpdate, and its last broadcast counts every returned record and sums the counts of the live records only |
| Cycle.FetchCycleKeepsInv | server.js:223-411 | the fetch cycle keeps the invariant |
| Cycle.OnMessage | server.js:715-739 | only the activity records and the log change, and no activity record is added; a bot's message changes nothing; at most one broadcast |
| Cycle.OnVoiceState | server.js:742-769 | only the event logs and the log change; no server's occupancy, peak or voice time changes; every server other than the event's tracked one keeps its voice tracker unchanged; at most one broadcast |
| Cycle.OnMemberChange | server.js:774-796 | only growth histories and the log change; each history gains at most one sample and no health history changes; every server other than the event's tracked one keeps its analytics unchanged; at most one broadcast |
| Cycle.MessageEffects | server.js:715-739 | a non-bot message on a tracked server with an activity record is `RecordMessage` of the old record: one more message, `activeUsers` becomes old ∪ {author} (so the broadcast size is that union's), the channel key added and counted from 0, lastReset kept; it changes no other server and emits one `activityUpdate`; any other message changes nothing |
| Cycle.VoiceStateEffects | server.js:742-769 | on a tracked server with a voice tracker, the log ends with the event `VoiceEventOf` builds (action by ClassifyVoice, channel `new?.name \|\| old?.name`: the new channel's name when non-empty, otherwise the old one's) and stays within 100, the voice map is the old one with only that server's tracker replaced by `RecordVoiceEvent` of that event, peak unchanged, that event broadcast; otherwise nothing changes; the invariant is kept |
| Cycle.MemberChangeEffects | server.js:774-796 | a tracked server is announced with one `memberUpdate` carrying the event's kind, username, avatar and count, even without an analytics tracker; with one, its growth history gains the event's sample and no other analytics entry changes; cache, activity, voice trackers and lastUpdate are kept; an untracked guild changes nothing; the invariant is kept |
| Cycle.MemberEventOverrunsWindow | server.js:777-784 | from a full 30-sample window, one member event leaves 31 samples: the member handlers do not trim |
| Cycle.EventsReachConfiguredGuildsOnly | server.js:774 | with the shipped configuration, an event from a guild reaches only a private entry configured with that guild id |
| Server.Dashboard.constructor | server.js:115-119 | empty maps, no broadcasts, lastUpdate the start time; the invariant holds |
| Server.Dashboard.InitializeAnalytics | server.js:122-133 | the analytics map becomes Initialized(old, id, fresh record); nothing else changes |
| Server.Dashboard.InitializeActivityTracker | server.js:135-145 | the activity map becomes Initialized(old, id, zeroed counters); nothing else changes |
| Server.Dashboard.InitializeVoiceTracker | server.js:147-156 | the voice map becomes Initialized(old, id, empty tracker); nothing else changes |
| Server.Dashboard.RebuildVoiceTracker | server.js:280-289 | the loop over the channels makes the server's voice tracker RebuildVoice of the old one; nothing else changes |
| Server.Dashboard.AppendMemberGrowth | server.js:296-304 | the server's analytics becomes AppendGrowth of the old record; nothing else changes |
| Server.Dashboard.AppendHealthSample | server.js:315-322 | the server's analytics becomes AppendHealth of the old record; nothing else changes |
| Server.Dashboard.UpdateTrackers | server.js:261-322 | with the trackers present, the server's analytics and voice become those of TrackGuild and the score is its score |
| Server.Dashboard.TrackEntry | server.js:239-322 | the three initialisers followed by UpdateTrackers |
| Server.Dashboard.Publish | server.js:353-360 | the record cached under its id and one `serverUpdate` appended to the broadcast log |
| Server.Dashboard.RefreshEntry | server.js:239-360 | the state and record after a successful fetch are those of Cycle.Refresh |
| Server.Dashboard.FetchEntry | server.js:227-395 | one loop body moves the state and yields the record exactly as Cycle.FetchEntry |
| Server.Dashboard.FetchServerData | server.js:223-411 | the loop over the configuration, the lastUpdate stamp and the global broadcast move the state and return the records exactly as Cycle.FetchCycle |
| Server.Dashboard.OnMessageCreate | server.js:715-739 | the handler moves the state exactly as Cycle.OnMessage |
| Server.Dashboard.OnVoiceStateUpdate | server.js:742-769 | push, trim to 100, broadcast the last event: the state becomes Cycle.OnVoiceState of the old one |
| Server.Dashboard.AppendVoiceEvent | server.js:750-762 | the server's voice tracker becomes RecordVoiceEvent of the old one: the event pushed, the log trimmed to the last 100; nothing else changes |
| Server.Dashboard.RecordMemberChange | server.js:774-796 | the push without a trim and the `memberUpdate` broadcast: the state becomes Cycle.OnMemberChange of the old one |
| Server.Dashboard.OnGuildMemberAdd | server.js:771-799 | a join record, then a whole fetch cycle: FetchCycle(OnMemberChange(old, join)) |
| Server.Dashboard.OnGuildMemberRemove | server.js:801-827 | a leave record, then a whole fetch cycle: FetchCycle(OnMemberChange(old, leave)) |

## Left out

- Health.CalculateHealthScore: its own contract only says the result is a finite score. The bounds and the rounding are proved in Health.HealthScoreBounds, outside the function, so that every proof mentioning a fetch stays cheap.
- Express routes, static serving and the HTTP handlers (server.js:414-652): they only read the maps.
- socket.io transport and the `connection` handler's initial data: the emits are modelled as an appended `Broadcast` log.
- The Discord client:
  - the invite REST call, `guilds.cache.get`, `guild.members.fetch` and presence filtering are oracle parameters;
  - the online count, the channel list, the icon URL and the avatar URLs arrive as data;
  - a failing invite call is the `Null` result of the invite oracle.
- Exceptions: only an exception at the guild lookup, before any tracker change, is modelled. In the code, an exception thrown later in the success path would leave the tracker changes made so far in place; the model does not capture that.
- Timers, `setInterval`, async interleaving and process signals: each handler and each fetch cycle runs to completion. An event arriving during an awaited fetch is not modelled.
- Timestamps: `new Date()` is one opaque `now` per call.
- JavaScript numbers:
  - scores are exact `real` values, not IEEE doubles;
  - with zero members or zero channels the code computes NaN, and the model returns `NotFinite` for the whole score instead of tracking NaN through each component;
  - counts are unbounded naturals.
- `dailyActivity` and `weeklyStats`: the code creates them and never writes them, so the analytics record leaves them out.
- The restricted record's `voiceData: []` and empty `breakdown`: the restricted record has no stats at all, and its health is `Withheld` with an overall of 0.
- A direct message has guild `undefined`. `find` then matches an entry whose environment variable is unset. Such an entry never has trackers, so nothing changes, and the model shows exactly that.
- The activity counters are never reset, and `totalVoiceTime` is never written. The model keeps both as the code does.
- ecosystem.config.js: deployment configuration with no logic.
