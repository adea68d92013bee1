/**
 * The session lifecycle as a whole: any sequence of commands and track ends,
 * each one an atomic step, starting from the empty world. Given that a failed
 * `manager.join` leaves no call behind, every world reached is `Valid`: the
 * bot's `unwrap`s and its table indexing never panic and every call has
 * exactly one end notifier.
 */
module Lifecycle {
  import opened Wrappers
  import opened Model
  import opened CommandSpec
  import opened HandlerSpec

  /** One thing that can happen to the bot. */
  datatype Step =
    | PlayCmd(guild: GuildId, authorChannel: Option<ChannelId>, query: string,
              metadata: Result<Option<string>, string>, joinOk: bool)
    | SkipCmd(guild: GuildId)
    | NowPlayingCmd(guild: GuildId)
    | QueueCmd(guild: GuildId)
    | LoopCmd(guild: GuildId)
      /** The current track of the guild ends on its own (played out or errored). */
    | TrackFinished(guild: GuildId, mode: PlayMode, removeOk: bool)
      /** songbird delivers the end event of the oldest track `skip` stopped. */
    | SkippedTrackEnded(guild: GuildId, removeOk: bool)

  /**
   * The step does not panic: `loop` finds the entry it indexes, and an end
   * event is about a record carrying both typemap entries `act` may unwrap.
   * A track end of a guild with no such track does nothing.
   */
  predicate Defined(w: World, s: Step) {
    match s
    case LoopCmd(g) => g in w.calls ==> g in w.guildData
    case TrackFinished(g, _, _) => g in w.calls && w.calls[g].queue != [] ==> Tagged(w.calls[g].queue[0])
    case SkippedTrackEnded(g, _) => g in w.calls && w.calls[g].stopped != [] ==> Tagged(w.calls[g].stopped[0])
    case _ => true
  }

  function Apply(w: World, s: Step): World
    requires Defined(w, s)
  {
    match s
    case PlayCmd(g, c, q, m, ok) => CommandSpec.Play(w, g, c, q, m, ok).world
    case SkipCmd(g) => Skip(w, g).world
    case NowPlayingCmd(_) => w
    case QueueCmd(_) => w
    case LoopCmd(g) => LoopQueue(w, g).world
    case TrackFinished(g, mode, ok) =>
      if g in w.calls && w.calls[g].queue != [] then FinishCurrent(w, g, mode, ok) else w
    case SkippedTrackEnded(g, ok) =>
      if g in w.calls && w.calls[g].stopped != [] then FinishStopped(w, g, ok) else w
  }

  lemma TryJoinPreservesValid(w: World, guild: GuildId, authorChannel: Option<ChannelId>, joinOk: bool)
    requires Valid(w)
    ensures Valid(TryJoin(w, guild, authorChannel, joinOk).world)
  {
  }

  lemma PlayPreservesValid(w: World, guild: GuildId, authorChannel: Option<ChannelId>, query: string,
                           metadata: Result<Option<string>, string>, joinOk: bool)
    requires Valid(w)
    ensures Valid(CommandSpec.Play(w, guild, authorChannel, query, metadata, joinOk).world)
  {
  }

  lemma SkipPreservesValid(w: World, guild: GuildId)
    requires Valid(w)
    ensures Valid(Skip(w, guild).world)
  {
  }

  /** In a valid world no step panics, and each step keeps the world valid. */
  lemma StepPreservesValid(w: World, s: Step)
    requires Valid(w)
    ensures Defined(w, s)
    ensures Valid(Apply(w, s))
  {
    match s
    case PlayCmd(g, c, q, m, ok) => PlayPreservesValid(w, g, c, q, m, ok);
    case SkipCmd(g) => SkipPreservesValid(w, g);
    case NowPlayingCmd(_) =>
    case QueueCmd(_) =>
    case LoopCmd(g) =>
    case TrackFinished(g, mode, ok) =>
      if g in w.calls && w.calls[g].queue != [] {
        FinishCurrentPreservesValid(w, g, mode, ok);
      }
    case SkippedTrackEnded(g, ok) =>
      if g in w.calls && w.calls[g].stopped != [] {
        FinishStoppedPreservesValid(w, g, ok);
      }
  }

  /** Runs the steps in order; `None` if a step would panic. */
  function Run(w: World, steps: seq<Step>): Option<World>
    decreases |steps|
  {
    if steps == [] then Some(w)
    else if !Defined(w, steps[0]) then None
    else Run(Apply(w, steps[0]), steps[1..])
  }

  /**
   * From a valid world (the start-up world is one), every sequence of steps
   * runs without a panic and ends in a valid world.
   */
  lemma {:induction false} RunKeepsValid(w: World, steps: seq<Step>)
    requires Valid(w)
    ensures Run(w, steps).Some? && Valid(Run(w, steps).value)
    decreases |steps|
  {
    if steps != [] {
      StepPreservesValid(w, steps[0]);
      RunKeepsValid(Apply(w, steps[0]), steps[1..]);
    }
  }

  lemma InitialValid()
    ensures Valid(INITIAL)
  {
  }

  const SONG_A := TrackRecord(Some("Song A"), Some(YoutubeDl("some song")))

  /**
   * A whole session: `play` from a voice channel creates the call with the
   * one track; `skip` stops it, leaving the queue empty; the stopped track's
   * end event (not looping) removes the call; `now_playing` then reports no
   * call. The table entry outlives the call.
   */
  lemma PlaySkipLeaveScenario(guild: GuildId, channel: ChannelId)
    ensures var played := CommandSpec.Play(INITIAL, guild, Some(channel), "some song", Ok(Some("Song A")), true);
      && played.replies == [QueuedReply("Song A")]
      && played.world.calls == map[guild := Call([SONG_A], [], 1)]
      && var skipped := Skip(played.world, guild);
      && skipped.replies == [SKIPPED]
      && skipped.world.calls[guild] == Call([], [SONG_A], 1)
      && var left := FinishStopped(skipped.world, guild, true);
      && left.calls == map[]
      && left.guildData == map[guild := DEFAULT_GUILD_DATA]
      && NowPlaying(left, guild) == NOT_IN_CALL
  {
  }

  /**
   * The table entry is never deleted and a fresh join keeps it, so a guild
   * that left its call while looping loops again as soon as it rejoins.
   */
  lemma LoopSurvivesRejoin(w: World, guild: GuildId, channel: ChannelId, query: string, title: Option<string>)
    requires guild !in w.calls && LoopFlag(w, guild)
    ensures LoopFlag(CommandSpec.Play(w, guild, Some(channel), query, Ok(title), true).world, guild)
  {
  }

  /**
   * What the no-panic guarantee rests on: if songbird kept the call a failed
   * fresh join created, the guild would be in a call with neither a table
   * entry nor an end notifier. The world is then not valid, `play` still
   * enqueues onto that call, a later successful join registers no notifier,
   * and `loop` would index the missing entry.
   */
  lemma KeptCallAfterFailedJoin(w: World, guild: GuildId, channel: ChannelId, query: string, title: Option<string>)
    requires Valid(w) && guild !in w.calls && guild !in w.guildData
    ensures var kept := w.(calls := w.calls[guild := Call([], [], 0)]);
      && !Valid(kept)
      && var played := CommandSpec.Play(kept, guild, Some(channel), query, Ok(title), true);
      && guild in played.world.calls && guild !in played.world.guildData
      && |played.world.calls[guild].queue| == 1
      && played.world.calls[guild].endNotifiers == 0
      && !Defined(played.world, LoopCmd(guild))
  {
  }
}
