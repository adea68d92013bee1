# Harmony playback sessions in Dafny

Harmony is a Discord music bot. Its members use slash commands to queue YouTube tracks into a guild's voice call, skip them, inspect the queue and toggle looping. This project models the bot's per-guild playback state machine and proves properties of it:

- the guild table (`GuildData { loop_queue }` per guild, `src/lib.rs`);
- the calls the songbird voice manager holds, each with its track queue and its count of registered end-of-track notifiers;
- the commands `play` (with `try_join`), `skip`, `now_playing`, `queue` and `loop` (`src/commands.rs`);
- the end-of-track handler `TrackEndNotifier::act` (`src/handlers.rs`).

Layout, in dependency order:

- `wrappers.dfy`: `Option` and `Result`.
- `text.dfy`: Rust's `str::trim`. Also the decimal rendering of an index, with its inverse.
- `model.dfy`: the data model (`GuildData`, `TrackRecord`, `Call`, `World`) and the invariant `Valid`. It also holds the two shared heap objects: `Songbird` (the calls) and `GuildTable` (the `Arc<Mutex<HashMap<GuildId, GuildData>>>`).
- `commands_spec.dfy`, `handlers_spec.dfy`: every command and the end handler as a pure transition `World -> World` plus the replies it sends. Their properties are stated in the contracts and in lemmas.
- `lifecycle.dfy`: arbitrary sequences of commands and track ends. It proves that every reachable world is `Valid`, assuming a failed join leaves no call behind (see below). It also replays an end-to-end session.
- `commands.dfy`, `handlers.dfy`: the command bodies and `act` written step by step over the heap objects. Each is proved to produce exactly the new state and replies of its pure transition. The queue listing is built by a loop, as in the source.

Anything the bot cannot decide itself is an input to the transition:

- the author's voice channel;
- whether `manager.join` and `manager.remove` succeed;
- what `aux_metadata` returns: `Ok(title option)` or `Err(message)`.

A queued track's typemap is a `TrackRecord` with an optional title and an optional source. `Valid` proves that both are always present, both for queued tracks and for tracks `skip` stopped whose end event is still to come. That is why the `unwrap`s in `act` are safe.

What the code does with the session state, and what follows from it:

- The code never deletes a guild's table entry, and a fresh join uses `or_default`. So a guild that left its call while looping resumes looping when it rejoins (`Lifecycle.LoopSurvivesRejoin`, `HandlerSpec.LastTrackLeaves`).
- The code requeues only when the track reached `PlayMode::End`. A stopped (skipped) track is never requeued, even with looping on (`HandlerSpec.StoppedTrackNeverRequeued`).
- When `manager.remove` fails, songbird keeps the call, so nothing changes.
- `loop` indexes the table directly after `and_modify`. The model takes "a guild in a call has an entry" as the precondition of `CommandSpec.LoopQueue`, and `Lifecycle.StepPreservesValid` proves that every reachable world meets it.
- The no-panic results rest on one assumption about songbird: a failed `manager.join` leaves no call behind. `Lifecycle.KeptCallAfterFailedJoin` shows what would follow if it kept one: a call with no table entry and no notifier, onto which `play` still enqueues, so a later `loop` would panic.

## Model

| member | source | states |
|---|---|---|
| `Text.Trim` | src/commands.rs:114-117 | the trimmed metadata error text is the slice of the original that starts where `trim_start` stops and has only whitespace outside it; it neither begins nor ends with whitespace; it equals the original exactly when the original is empty or neither begins nor ends with whitespace |
| `Text.LeadingEnd` | src/commands.rs:116 | the scan stops at the first character that is not whitespace, and everything it passed is whitespace |
| `Text.TrailingStart` | src/commands.rs:116 | the backward scan stops after the last character that is not whitespace, and everything it passed is whitespace |
| `Text.TrimStart` | src/commands.rs:116 | only a whitespace prefix is removed, and the result does not begin with whitespace |
| `Text.TrimEnd` | src/commands.rs:116 | only a whitespace suffix is removed, and the result does not end with whitespace |
| `Text.TrimIdempotent` | src/commands.rs:116 | trimming twice is the same as trimming once |
| `Text.Decimal` | src/commands.rs:193 | the `{index}` rendering is a non-empty run of decimal digits with no leading zero |
| `Text.ParseDecimalOfDecimal` | src/commands.rs:193 | reading the rendered index back gives the index |
| `Text.DecimalInjective` | src/commands.rs:193 | two indices render the same exactly when they are equal |
| `Model.OrDefault` | src/commands.rs:58-63 | `entry().or_default()` adds the guild with `loop_queue = false` if it is missing and keeps every existing entry, the guild's own included |
| `CommandSpec.TryJoin` | src/commands.rs:36-79 | no author channel: no state change, and the "not in a voice channel" reply comes only when the guild had no call; guild already in a call: the world is unchanged (no second notifier, no table edit); failed join: no change, reply "Failed to join the call"; fresh join: an empty call with one notifier, other calls untouched, the guild table as `or_default` leaves it |
| `CommandSpec.Play` | src/commands.rs:90-123 | metadata error: no change, one reply with the trimmed error; otherwise, if the guild ends up in a call, its queue gains exactly one record at the end, holding the metadata title or `<UNKNOWN>` and the query's source, with earlier items, other calls and the table unchanged, and "Queued" is replied; if it does not end up in a call, nothing is enqueued |
| `CommandSpec.Skip` | src/commands.rs:127-145 | no call: unchanged, "Not in a call"; empty queue: unchanged, "Queue is empty"; otherwise only the head of that guild's queue is stopped: it leaves the queue and waits for its end event, while the table and other calls are unchanged |
| `CommandSpec.LoopQueue` | src/commands.rs:207-229 | in a call: flips this guild's flag only, with table keys, calls and other entries kept, and the reply reports the new value; no call: unchanged, "Not in a call" |
| `CommandSpec.LoopQueueTwice` | src/commands.rs:211-217 | toggling twice restores the original world |
| `CommandSpec.ListingAppend` | src/commands.rs:183-195 | appending a track to a non-empty queue adds exactly the line `n. **title**` for it to the listing |
| `CommandSpec.ListingShape` | src/commands.rs:183-195 | the listing is "Queue is empty" exactly when the queue is empty; otherwise it is the `now_playing` reply, a newline, then the numbered lines |
| `CommandSpec.NowPlayingCases` | src/commands.rs:153-168 | "Not in a call" exactly when the guild has no call; "Nothing is playing" exactly when the call's queue is empty |
| `HandlerSpec.Act` | src/handlers.rs:23-52 | no call or not exactly one track: no change; never changes any `loop_queue` value and adds at most a default entry for its guild; looping (flag on and `PlayMode::End`): the finished record is appended once, with the call and earlier items kept; not looping with an empty queue: the call is removed when `remove` succeeds; not looping with a non-empty queue: calls unchanged |
| `HandlerSpec.ActPreservesValid` | src/handlers.rs:38-43 | the requeued record carries both title and source, so `act` keeps the invariant |
| `HandlerSpec.RunNotifiersPreservesValid` | src/handlers.rs:23-52 | running any number of notifiers on one event keeps the invariant |
| `HandlerSpec.EndEventRunsActOnce` | src/commands.rs:56-73 | in a valid world a track end runs `act` exactly once (one notifier per call) |
| `HandlerSpec.FinishCurrentPreservesValid` | src/handlers.rs:28-43 | a track playing out (queue drops its head, then `act`) keeps the invariant, so the `unwrap`s see both entries |
| `HandlerSpec.LoopedTrackComesBack` | src/handlers.rs:32-43 | with looping on, a single queued track that ends is put back, leaving the world exactly as before |
| `HandlerSpec.LoopNeverEmpties` | src/handlers.rs:32-43 | any number of ends of a looped single track leaves the queue holding it, with no teardown |
| `HandlerSpec.LastTrackLeaves` | src/handlers.rs:44-48 | when the last track ends without looping and `remove` succeeds, the call is gone while the table is untouched |
| `HandlerSpec.NotifiersEachRequeue` | src/commands.rs:57-73 | with `n` notifiers on a call and looping on, one natural end of a track appends `n` copies of it, which is why only a fresh join registers one |
| `HandlerSpec.FinishStoppedPreservesValid` | src/handlers.rs:28-43 | the end event of a skipped track (songbird discards it, then `act` with `PlayMode::Stop`) keeps the invariant |
| `HandlerSpec.StoppedTrackNeverRequeued` | src/handlers.rs:32-36 | a skipped track's end never requeues it, even with looping on; with an empty queue and a successful `remove`, the call is gone; the table is untouched |
| `Lifecycle.TryJoinPreservesValid` | src/commands.rs:56-73 | a join keeps the invariant |
| `Lifecycle.PlayPreservesValid` | src/commands.rs:103-110 | `play` queues only records with both title and source |
| `Lifecycle.SkipPreservesValid` | src/commands.rs:131-142 | `skip` keeps the invariant |
| `Lifecycle.StepPreservesValid` | src/commands.rs:211-216 | in a valid world no command or track end panics (`loop` finds its entry, every record `act` unwraps has both entries), and each keeps the invariant |
| `Lifecycle.RunKeepsValid` | src/handlers.rs:30-40 | every sequence of steps from a valid world runs without panic and ends valid |
| `Lifecycle.PlaySkipLeaveScenario` | src/handlers.rs:44-48 | play → queue `[Song A]`, skip → empty queue with `Song A` stopped, its end event → call removed while the table entry stays, then `now_playing` replies "Not in a call" |
| `Lifecycle.KeptCallAfterFailedJoin` | src/commands.rs:56-76 | were a failed fresh join to leave its call behind, the world would not be valid: `play` enqueues onto a call with no notifier and no table entry, and `loop` would panic |
| `Lifecycle.LoopSurvivesRejoin` | src/commands.rs:58-63 | a guild that left its call while looping is looping again right after a fresh `play` |
| `Commands.TryJoin` | src/commands.rs:36-79 | the step-by-step join produces exactly the state and replies of `CommandSpec.TryJoin` |
| `Commands.Play` | src/commands.rs:90-123 | enqueueing, then writing the title and source into the typemap, gives exactly `CommandSpec.Play` |
| `Commands.Skip` | src/commands.rs:127-145 | exactly `CommandSpec.Skip` |
| `Commands.NowPlaying` | src/commands.rs:149-171 | replies as `CommandSpec.NowPlaying`: "Not in a call" iff no call, "Nothing is playing" iff the queue is empty |
| `Commands.BuildListing` | src/commands.rs:183-195 | the loop that reassigns and extends `message` produces exactly `CommandSpec.Listing` of the queue |
| `Commands.Queue` | src/commands.rs:175-203 | replies "Not in a call" with no call, else the listing |
| `Commands.LoopQueue` | src/commands.rs:207-229 | exactly `CommandSpec.LoopQueue` |
| `Handlers.TrackEndNotifier.Act` | src/handlers.rs:23-52 | the step-by-step handler (an `or_default` insert, an enqueue followed by typemap writes, or a remove) produces exactly `HandlerSpec.Act` |

## Left out

- songbird's transport, `Call` locking and typemap mechanics: a call is reduced to its queue and its notifier count, and the voice channel it occupies is not modelled. A successful re-join of a guild already in a call (possibly into another channel) therefore changes nothing.
- A failed `manager.join` is modelled as changing nothing. The model does not decide whether songbird keeps the call object it created. `Lifecycle.KeptCallAfterFailedJoin` shows that the no-panic results need it not to.
- songbird starting the next track: the queue advance is modelled only as dropping the head. `skip` moves the head to the call's stopped tracks at once. songbird actually stops the track in place and drops it when it processes the end event. The end event of that skipped track is the separate `SkippedTrackEnded` step.
- `aux_metadata`, the HTTP client and YouTube resolution: an input. Of the metadata only the title is used, as in the source.
- `ctx.say` failures: the early return through `?` when a reply cannot be sent is not modelled (Discord I/O).
- Async execution and locking (the `Mutex` around the table, `handler_lock.lock().await`): each command and each event is one atomic step. So a loop toggle racing an in-flight end decision is not modelled; in the model the toggle runs wholly before or wholly after `act`.
- `act`'s return value, which is always `None`, and event contexts other than a track event (only `TrackEvent::End` is registered). `HandlerSpec.Act` covers an event about several tracks, but the lifecycle steps deliver one track per event.
- `ping`, `ctx.defer`, `get_manager`'s `expect`, and logging through `info!` and `error!`.
- `run` and `on_error` in src/lib.rs, plus src/main.rs, src/commands/mod.rs and src/commands/play.rs: bootstrap and command registration, with no session logic.
- `GuildId` and `ChannelId` are unbounded naturals instead of 64-bit snowflakes; only their equality matters.
