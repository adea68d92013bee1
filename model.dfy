/**
 * The bot's per-guild playback state: the guild table owned by the bot
 * (`GuildData`, src/lib.rs) and, for every guild the voice manager holds a
 * call for, that call's track queue and the end-of-track notifiers
 * registered on it (songbird's part, seen only through its interface).
 */
module Model {
  import opened Wrappers

  /** Discord snowflakes; only equality matters here. */
  type GuildId = nat
  type ChannelId = nat

  /** Per-guild settings. A fresh entry (`GuildData::default()`) does not loop. */
  datatype GuildData = GuildData(loopQueue: bool)

  const DEFAULT_GUILD_DATA := GuildData(false)

  /** A re-playable stream descriptor: `YoutubeDl::new(client, query)`. */
  datatype Source = YoutubeDl(query: string)

  /** songbird's `PlayMode` of a track when its end event fires. */
  datatype PlayMode = Play | Pause | Stop | End | Errored

  /**
   * The `SongTitle` and `SongSource` entries of a track's typemap. Either
   * entry may be missing in a typemap in general; the bot always writes both.
   */
  datatype TrackRecord = TrackRecord(title: Option<string>, source: Option<Source>)

  /** A record carrying both typemap entries, as `play` and the loop requeue write them. */
  predicate Tagged(t: TrackRecord) {
    t.title.Some? && t.source.Some?
  }

  /**
   * A voice call held by the manager: its queue (index 0 is the track
   * playing), the tracks `skip` has stopped whose end event songbird has not
   * delivered yet (oldest first), and the number of `TrackEndNotifier`s
   * registered as global end-of-track events on it.
   */
  datatype Call = Call(queue: seq<TrackRecord>, stopped: seq<TrackRecord>, endNotifiers: nat)

  /**
   * One snapshot of everything the commands and the end handler read or
   * write: the guild table and the calls. `g in calls` is `manager.get(g).is_some()`.
   */
  datatype World = World(guildData: map<GuildId, GuildData>, calls: map<GuildId, Call>)

  /**
   * What every reachable world satisfies: a guild in a call has a table entry
   * (so `data[&guild_id]` in `loop_queue` cannot panic), exactly one end
   * notifier (so each track end is handled once), and only fully tagged
   * records queued or awaiting their stop event (so the `unwrap`s in the end
   * handler cannot panic).
   */
  predicate Valid(w: World) {
    && (forall g :: g in w.calls ==> g in w.guildData)
    && (forall g :: g in w.calls ==> w.calls[g].endNotifiers == 1)
    && (forall g, i :: g in w.calls && 0 <= i < |w.calls[g].queue| ==> Tagged(w.calls[g].queue[i]))
    && (forall g, i :: g in w.calls && 0 <= i < |w.calls[g].stopped| ==> Tagged(w.calls[g].stopped[i]))
  }

  /** The world at start-up: `Data::default()` with an empty table, and no calls. */
  const INITIAL := World(map[], map[])

  /**
   * `entry(guild).or_default()`: makes sure `guild` has an entry, inserting
   * the default one if it lacked it, and keeps every existing entry as it was.
   */
  function OrDefault(m: map<GuildId, GuildData>, guild: GuildId): (r: map<GuildId, GuildData>)
    ensures r.Keys == m.Keys + {guild}
    ensures forall g :: g in m ==> r[g] == m[g]
    ensures guild !in m ==> r[guild] == DEFAULT_GUILD_DATA
  {
    if guild in m then m else m[guild := DEFAULT_GUILD_DATA]
  }

  /** The guild's loop flag as `or_default()` would read it: absent means false. */
  predicate LoopFlag(w: World, guild: GuildId) {
    guild in w.guildData && w.guildData[guild].loopQueue
  }

  /**
   * Only `guild`'s queue and stopped tracks may differ between `w` and `w'`:
   * the table, the set of calls, every notifier count and every other
   * guild's call are the same.
   */
  predicate OnlyTracksChanged(w: World, w': World, guild: GuildId) {
    && guild in w.calls
    && w'.guildData == w.guildData
    && w'.calls.Keys == w.calls.Keys
    && w'.calls[guild].endNotifiers == w.calls[guild].endNotifiers
    && (forall g :: g in w.calls && g != guild ==> w'.calls[g] == w.calls[g])
  }

  /** songbird's `Songbird` voice manager, reduced to the calls it holds. */
  class Songbird {
    var calls: map<GuildId, Call>

    constructor ()
      ensures calls == map[]
    {
      calls := map[];
    }
  }

  /** The shared `Arc<Mutex<HashMap<GuildId, GuildData>>>` of `Data`. */
  class GuildTable {
    var entries: map<GuildId, GuildData>

    constructor ()
      ensures entries == map[]
    {
      entries := map[];
    }
  }

  /** The world as seen through the two shared objects. */
  function Snapshot(manager: Songbird, table: GuildTable): World
    reads manager, table
  {
    World(table.entries, manager.calls)
  }
}
