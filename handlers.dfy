/** The end-of-track notifier of src/handlers.rs, over the two shared objects. */
module Handlers {
  import opened Wrappers
  import opened Model
  import HandlerSpec

  /**
   * The handler registered on a call by a fresh join: it shares the voice
   * manager and the guild table with the commands and knows its guild.
   */
  class TrackEndNotifier {
    const manager: Songbird
    const guildId: GuildId
    const guildData: GuildTable

    constructor (manager: Songbird, guildId: GuildId, guildData: GuildTable)
      ensures this.manager == manager && this.guildId == guildId && this.guildData == guildData
    {
      this.manager := manager;
      this.guildId := guildId;
      this.guildData := guildData;
    }

    /**
     * `act`: one end-of-track event; whether `manager.remove` succeeds is an
     * input. The new state is exactly `HandlerSpec.Act` of the old one.
     */
    method Act(ctx: seq<HandlerSpec.TrackEvent>, removeOk: bool)
      requires HandlerSpec.Acts(Snapshot(manager, guildData), guildId, ctx) ==> ctx[0].record.source.Some?
      requires HandlerSpec.ShouldLoop(Snapshot(manager, guildData), guildId, ctx) ==> ctx[0].record.title.Some?
      modifies manager, guildData
      ensures Snapshot(manager, guildData) == HandlerSpec.Act(old(Snapshot(manager, guildData)), guildId, ctx, removeOk)
    {
      if guildId !in manager.calls {
        return;
      }
      if |ctx| == 1 {
        var finished := ctx[0];
        var source := finished.record.source.value;
        var songEnded := finished.playing == End;
        guildData.entries := OrDefault(guildData.entries, guildId);
        var shouldLoop := guildData.entries[guildId].loopQueue && songEnded;
        if shouldLoop {
          var call := manager.calls[guildId];
          var queued := call.queue;
          var position := |queued|;
          call := call.(queue := call.queue + [TrackRecord(None, None)]);
          var title := finished.record.title.value;
          call := call.(queue := call.queue[position := call.queue[position].(title := Some(title))]);
          call := call.(queue := call.queue[position := call.queue[position].(source := Some(source))]);
          assert call.queue == queued + [TrackRecord(Some(title), Some(source))];
          manager.calls := manager.calls[guildId := call];
        } else if manager.calls[guildId].queue == [] {
          if removeOk {
            manager.calls := manager.calls - {guildId};
          }
        }
      }
    }
  }
}
