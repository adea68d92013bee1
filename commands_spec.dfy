/**
 * The slash commands of src/commands.rs as transitions of the world: each
 * takes the world before the command and gives the world after it together
 * with the replies the command sends, in order. What the command cannot
 * decide itself (the author's voice channel, whether songbird's `join`
 * succeeds, what YouTube answers for the query) is a parameter.
 */
module CommandSpec {
  import opened Wrappers
  import opened Model
  import Text

  const FALLBACK_TITLE := "<UNKNOWN>"
  const NOT_IN_VOICE := "You are not in a voice channel"
  const JOIN_FAILED := "Failed to join the call"
  const NOT_IN_CALL := "Not in a call"
  const QUEUE_EMPTY := "Queue is empty"
  const SKIPPED := "Skipped"
  const NOTHING_PLAYING := "Nothing is playing"
  const LOOPING := "Looping the queue"
  const STOPPED_LOOPING := "Stopped looping the queue"

  /** The world after a command and the messages it said, in order. */
  datatype Outcome = Outcome(world: World, replies: seq<string>)

  /** The title shown for a queued track: its `SongTitle` entry, or `fallback_title()`. */
  function DisplayTitle(t: TrackRecord): string {
    t.title.GetOr(FALLBACK_TITLE)
  }

  function QueuedReply(title: string): string {
    "Queued **" + title + "**"
  }

  function MetadataFailedReply(why: string): string {
    "Failed to get metadata of the song: `" + Text.Trim(why) + "`"
  }

  /**
   * `try_join`: idempotent join. Without an author voice channel nothing is
   * joined; a guild already in a call is left exactly as it was (no second
   * end notifier, no table change); a fresh successful join gives the guild an
   * empty call with one end notifier and a table entry, keeping an entry it
   * already had; a failed join changes nothing.
   */
  function TryJoin(w: World, guild: GuildId, authorChannel: Option<ChannelId>, joinOk: bool): (r: Outcome)
    ensures authorChannel.None? ==>
      r.world == w && r.replies == (if guild in w.calls then [] else [NOT_IN_VOICE])
    ensures authorChannel.Some? && !joinOk ==> r.world == w && r.replies == [JOIN_FAILED]
    ensures guild in w.calls ==> r.world == w
    ensures authorChannel.Some? && joinOk ==> r.replies == [] && guild in r.world.calls
    ensures authorChannel.Some? && joinOk && guild !in w.calls ==>
      && r.world.calls.Keys == w.calls.Keys + {guild}
      && r.world.calls[guild] == Call([], [], 1)
      && (forall g :: g in w.calls ==> r.world.calls[g] == w.calls[g])
      && r.world.guildData == OrDefault(w.guildData, guild)
  {
    var inCall := guild in w.calls;
    if authorChannel.None? then
      Outcome(w, if inCall then [] else [NOT_IN_VOICE])
    else if !joinOk then
      Outcome(w, [JOIN_FAILED])
    else if inCall then
      Outcome(w, [])
    else
      var created := Call([], [], 0);
      var registered := created.(endNotifiers := created.endNotifiers + 1);
      Outcome(World(OrDefault(w.guildData, guild), w.calls[guild := registered]), [])
  }

  /**
   * `play`: on a metadata failure only the error is reported. Otherwise the
   * bot tries to join and, if the guild is then in a call, appends exactly one
   * record at the end of its queue: the metadata title (or the fallback) and
   * the source built from the query.
   */
  function Play(w: World, guild: GuildId, authorChannel: Option<ChannelId>, query: string,
                metadata: Result<Option<string>, string>, joinOk: bool): (r: Outcome)
    ensures metadata.Err? ==> r.world == w && r.replies == [MetadataFailedReply(metadata.error)]
    ensures metadata.Ok? && guild in w.calls ==>
      var title := metadata.value.GetOr(FALLBACK_TITLE);
      && OnlyTracksChanged(w, r.world, guild)
      && r.world.calls[guild].queue == w.calls[guild].queue + [TrackRecord(Some(title), Some(YoutubeDl(query)))]
      && r.world.calls[guild].stopped == w.calls[guild].stopped
      && r.replies == (if authorChannel.Some? && !joinOk then [JOIN_FAILED] else []) + [QueuedReply(title)]
    ensures metadata.Ok? && guild !in w.calls && authorChannel.Some? && joinOk ==>
      var title := metadata.value.GetOr(FALLBACK_TITLE);
      && r.world.calls.Keys == w.calls.Keys + {guild}
      && r.world.calls[guild] == Call([TrackRecord(Some(title), Some(YoutubeDl(query)))], [], 1)
      && (forall g :: g in w.calls ==> r.world.calls[g] == w.calls[g])
      && r.world.guildData == OrDefault(w.guildData, guild)
      && r.replies == [QueuedReply(title)]
    ensures metadata.Ok? && guild !in w.calls && (authorChannel.None? || !joinOk) ==>
      r.world == w && r.replies == [if authorChannel.None? then NOT_IN_VOICE else JOIN_FAILED]
  {
    match metadata
    case Err(why) => Outcome(w, [MetadataFailedReply(why)])
    case Ok(metaTitle) =>
      var joined := TryJoin(w, guild, authorChannel, joinOk);
      if guild in joined.world.calls then
        var title := metaTitle.GetOr(FALLBACK_TITLE);
        var call := joined.world.calls[guild];
        var enqueued := call.(queue := call.queue + [TrackRecord(Some(title), Some(YoutubeDl(query)))]);
        Outcome(joined.world.(calls := joined.world.calls[guild := enqueued]), joined.replies + [QueuedReply(title)])
      else
        joined
  }

  /**
   * `skip`: with no call or an empty queue nothing changes and the reason is
   * reported; otherwise the head of the guild's queue is stopped: it leaves
   * the queue and waits, with its typemap, for songbird's end event.
   */
  function Skip(w: World, guild: GuildId): (r: Outcome)
    ensures guild !in w.calls ==> r == Outcome(w, [NOT_IN_CALL])
    ensures guild in w.calls && w.calls[guild].queue == [] ==> r == Outcome(w, [QUEUE_EMPTY])
    ensures guild in w.calls && w.calls[guild].queue != [] ==>
      && OnlyTracksChanged(w, r.world, guild)
      && r.world.calls[guild].queue == w.calls[guild].queue[1..]
      && r.world.calls[guild].stopped == w.calls[guild].stopped + [w.calls[guild].queue[0]]
      && r.replies == [SKIPPED]
  {
    if guild !in w.calls then Outcome(w, [NOT_IN_CALL])
    else
      var call := w.calls[guild];
      if |call.queue| == 0 then Outcome(w, [QUEUE_EMPTY])
      else
        var stoppedCall := call.(queue := call.queue[1..], stopped := call.stopped + [call.queue[0]]);
        Outcome(w.(calls := w.calls[guild := stoppedCall]), [SKIPPED])
  }

  function NowPlayingReply(title: string): string {
    "Now playing **" + title + "**"
  }

  /** `now_playing`: the reply only; the command changes nothing. */
  function NowPlaying(w: World, guild: GuildId): string {
    if guild !in w.calls then NOT_IN_CALL
    else if w.calls[guild].queue == [] then NOTHING_PLAYING
    else NowPlayingReply(DisplayTitle(w.calls[guild].queue[0]))
  }

  /** The listing line for the track at `index` (1 or more). */
  function Line(index: nat, t: TrackRecord): string {
    Text.Decimal(index) + ". **" + DisplayTitle(t) + "**\n"
  }

  /** The listing lines for the tracks at indices 1 to n - 1 of `q`, in order. */
  function Lines(q: seq<TrackRecord>, n: nat): string
    requires 1 <= n <= |q|
  {
    if n == 1 then "" else Lines(q, n - 1) + Line(n - 1, q[n - 1])
  }

  /** The text `queue` sends for a guild's queue. */
  function Listing(q: seq<TrackRecord>): string {
    if q == [] then QUEUE_EMPTY else NowPlayingReply(DisplayTitle(q[0])) + "\n" + Lines(q, |q|)
  }

  /** `queue`: the reply only; the command changes nothing. */
  function QueueReply(w: World, guild: GuildId): string {
    if guild !in w.calls then NOT_IN_CALL else Listing(w.calls[guild].queue)
  }

  /**
   * `loop_queue`: in a call, flips that guild's flag and reports its new
   * value; every other entry and every call is left alone. With no call
   * nothing changes. The source indexes the table after `and_modify`, so a
   * guild in a call must have an entry (which `Valid` guarantees).
   */
  function LoopQueue(w: World, guild: GuildId): (r: Outcome)
    requires guild in w.calls ==> guild in w.guildData
    ensures guild !in w.calls ==> r == Outcome(w, [NOT_IN_CALL])
    ensures guild in w.calls ==>
      && r.world.calls == w.calls
      && r.world.guildData.Keys == w.guildData.Keys
      && r.world.guildData[guild].loopQueue == !w.guildData[guild].loopQueue
      && (forall g :: g in w.guildData && g != guild ==> r.world.guildData[g] == w.guildData[g])
      && r.replies == [if r.world.guildData[guild].loopQueue then LOOPING else STOPPED_LOOPING]
  {
    if guild !in w.calls then Outcome(w, [NOT_IN_CALL])
    else
      var before := w.guildData[guild];
      var table := w.guildData[guild := before.(loopQueue := !before.loopQueue)];
      var loopState := table[guild].loopQueue;
      Outcome(w.(guildData := table), [if loopState then LOOPING else STOPPED_LOOPING])
  }

  /** Toggling the loop twice gives back the world it started from. */
  lemma LoopQueueTwice(w: World, guild: GuildId)
    requires guild in w.calls ==> guild in w.guildData
    ensures LoopQueue(LoopQueue(w, guild).world, guild).world == w
  {
  }

  /** Appending a track to a non-empty queue adds exactly its line to the listing. */
  lemma {:induction false} ListingAppend(q: seq<TrackRecord>, t: TrackRecord)
    requires q != []
    ensures Listing(q + [t]) == Listing(q) + Line(|q|, t)
  {
    LinesPrefix(q, t, |q|);
  }

  lemma {:induction false} LinesPrefix(q: seq<TrackRecord>, t: TrackRecord, n: nat)
    requires 1 <= n <= |q|
    ensures Lines(q + [t], n) == Lines(q, n)
    decreases n
  {
    if n > 1 {
      LinesPrefix(q, t, n - 1);
      assert (q + [t])[n - 1] == q[n - 1];
    }
  }

  /**
   * The listing says "Queue is empty" exactly when the queue is empty, and
   * otherwise begins with the `now_playing` reply on its own line.
   */
  lemma ListingShape(w: World, guild: GuildId)
    requires guild in w.calls
    ensures QueueReply(w, guild) == QUEUE_EMPTY <==> w.calls[guild].queue == []
    ensures w.calls[guild].queue != [] ==>
      QueueReply(w, guild) == NowPlaying(w, guild) + "\n" + Lines(w.calls[guild].queue, |w.calls[guild].queue|)
  {
  }

  /** The three `now_playing` replies are told apart by the state they come from. */
  lemma NowPlayingCases(w: World, guild: GuildId)
    ensures NowPlaying(w, guild) == NOT_IN_CALL <==> guild !in w.calls
    ensures NowPlaying(w, guild) == NOTHING_PLAYING <==> guild in w.calls && w.calls[guild].queue == []
  {
    var r := NowPlaying(w, guild);
    if guild in w.calls && w.calls[guild].queue != [] {
      assert r[2] == 'w';
    }
  }
}
