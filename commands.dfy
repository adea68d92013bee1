/**
 * The command bodies of src/commands.rs, step by step over the two shared
 * objects: the voice manager and the guild table. Each method is proved to
 * do exactly what the matching transition of `CommandSpec` describes.
 */
module Commands {
  import opened Wrappers
  import opened Model
  import opened CommandSpec
  import Text

  /**
   * `try_join`: the author's voice channel and the success of
   * `manager.join` are inputs; the bot's replies are returned.
   */
  method TryJoin(manager: Songbird, table: GuildTable, guildId: GuildId,
                 authorChannel: Option<ChannelId>, joinOk: bool) returns (replies: seq<string>)
    modifies manager, table
    ensures Outcome(Snapshot(manager, table), replies)
         == CommandSpec.TryJoin(old(Snapshot(manager, table)), guildId, authorChannel, joinOk)
  {
    var inCall := guildId in manager.calls;
    replies := [];
    if authorChannel.None? {
      if !inCall {
        replies := replies + [NOT_IN_VOICE];
      }
      return;
    }
    if joinOk {
      if guildId !in manager.calls {
        // songbird creates the call on a fresh join
        manager.calls := manager.calls[guildId := Call([], [], 0)];
      }
      if !inCall {
        table.entries := OrDefault(table.entries, guildId);
        var call := manager.calls[guildId];
        manager.calls := manager.calls[guildId := call.(endNotifiers := call.endNotifiers + 1)];
      }
    } else {
      replies := replies + [JOIN_FAILED];
    }
  }

  /** `play`: the metadata lookup's answer and the join's success are inputs. */
  method Play(manager: Songbird, table: GuildTable, guildId: GuildId, authorChannel: Option<ChannelId>,
              query: string, metadata: Result<Option<string>, string>, joinOk: bool)
    returns (replies: seq<string>)
    modifies manager, table
    ensures Outcome(Snapshot(manager, table), replies)
         == CommandSpec.Play(old(Snapshot(manager, table)), guildId, authorChannel, query, metadata, joinOk)
  {
    var source := YoutubeDl(query);
    match metadata {
      case Ok(metaTitle) =>
        replies := TryJoin(manager, table, guildId, authorChannel, joinOk);
        if guildId in manager.calls {
          var call := manager.calls[guildId];
          // enqueue_input, then the new track's typemap is written
          var queued := call.queue;
          var position := |queued|;
          call := call.(queue := call.queue + [TrackRecord(None, None)]);
          var title := metaTitle.GetOr(FALLBACK_TITLE);
          call := call.(queue := call.queue[position := call.queue[position].(title := Some(title))]);
          call := call.(queue := call.queue[position := call.queue[position].(source := Some(source))]);
          assert call.queue == queued + [TrackRecord(Some(title), Some(source))];
          manager.calls := manager.calls[guildId := call];
          replies := replies + [QueuedReply(title)];
        }
      case Err(why) =>
        replies := [MetadataFailedReply(why)];
    }
  }

  /** `skip`: stops the track playing, if any; songbird delivers its end event later. */
  method Skip(manager: Songbird, table: GuildTable, guildId: GuildId) returns (replies: seq<string>)
    modifies manager
    ensures Outcome(Snapshot(manager, table), replies) == CommandSpec.Skip(old(Snapshot(manager, table)), guildId)
  {
    if guildId in manager.calls {
      var call := manager.calls[guildId];
      if call.queue == [] {
        replies := [QUEUE_EMPTY];
        return;
      }
      manager.calls := manager.calls[guildId := call.(queue := call.queue[1..], stopped := call.stopped + [call.queue[0]])];
      replies := [SKIPPED];
    } else {
      replies := [NOT_IN_CALL];
    }
  }

  /** `now_playing`: reads the title of the track playing. */
  method NowPlaying(manager: Songbird, table: GuildTable, guildId: GuildId) returns (reply: string)
    ensures reply == CommandSpec.NowPlaying(Snapshot(manager, table), guildId)
    ensures reply == NOT_IN_CALL <==> guildId !in manager.calls
    ensures reply == NOTHING_PLAYING <==> guildId in manager.calls && manager.calls[guildId].queue == []
  {
    CommandSpec.NowPlayingCases(Snapshot(manager, table), guildId);
    if guildId in manager.calls {
      var queue := manager.calls[guildId].queue;
      if |queue| > 0 {
        var title := queue[0].title.GetOr(FALLBACK_TITLE);
        reply := NowPlayingReply(title);
      } else {
        reply := NOTHING_PLAYING;
      }
    } else {
      reply := NOT_IN_CALL;
    }
  }

  /**
   * The listing loop of `queue`: starts from "Queue is empty", replaces it by
   * the now-playing line at index 0 and appends one numbered line per later track.
   */
  method BuildListing(queue: seq<TrackRecord>) returns (message: string)
    ensures message == Listing(queue)
  {
    message := QUEUE_EMPTY;
    for index := 0 to |queue|
      invariant index == 0 ==> message == QUEUE_EMPTY
      invariant index > 0 ==> message == NowPlayingReply(DisplayTitle(queue[0])) + "\n" + Lines(queue, index)
    {
      var title := queue[index].title.GetOr(FALLBACK_TITLE);
      if index == 0 {
        message := NowPlayingReply(title) + "\n";
      } else {
        message := message + (Text.Decimal(index) + ". **" + title + "**\n");
      }
    }
  }

  /** `queue`: the listing of the guild's queue. */
  method Queue(manager: Songbird, table: GuildTable, guildId: GuildId) returns (reply: string)
    ensures reply == QueueReply(Snapshot(manager, table), guildId)
  {
    if guildId in manager.calls {
      reply := BuildListing(manager.calls[guildId].queue);
    } else {
      reply := NOT_IN_CALL;
    }
  }

  /** `loop_queue`: flips the guild's flag under the table lock and reports the new value. */
  method LoopQueue(manager: Songbird, table: GuildTable, guildId: GuildId) returns (replies: seq<string>)
    requires guildId in manager.calls ==> guildId in table.entries
    modifies table
    ensures Outcome(Snapshot(manager, table), replies) == CommandSpec.LoopQueue(old(Snapshot(manager, table)), guildId)
  {
    if guildId in manager.calls {
      if guildId in table.entries {
        var data := table.entries[guildId];
        table.entries := table.entries[guildId := data.(loopQueue := !data.loopQueue)];
      }
      var loopState := table.entries[guildId].loopQueue;
      replies := [if loopState then LOOPING else STOPPED_LOOPING];
    } else {
      replies := [NOT_IN_CALL];
    }
  }
}
