# go-discord-music: the per-guild queue and continuation policy, in Dafny

This project models the part of the Discord music bot that holds state and
policy, and proves properties of that model:

- the per-guild playback **queue** (`Queue`: tracks plus a free-form type
  string) and the **queue registry** (`QueueManager`: guild id to queue,
  created on first lookup, deleted explicitly);
- the **track-end continuation policy** (`onTrackEnd`), which chooses the
  next track by the queue's repeat mode or marks the guild idle, and
  `onTrackStart`, which clears the idle mark;
- the **idle tracker** (guild id to an instant) and the sweep of the `debug`
  command that disconnects guilds idle for longer than the idle timeout;
- the queue and idle logic of the `skip`, `queue-type`, `clear-queue`,
  `shuffle` and `disconnect` handlers, voice-state updates, `Shutdown`,
  command dispatch and option parsing;
- two pure helpers of the handlers: the normalisation of a `play`
  identifier, and `formatPosition`.

Layout, one module per file:

- `wrappers.dfy` (`Wrappers`): `Option`.
- `queue.dfy` (`Queues`): the `Queue` and `QueueManager` classes, their
  value-level specifications (`TakeHead`, `TakeAfterSkipping`, `Lookup`),
  and the queue's unit tests as client methods.
- `play_handlers.dfy` (`PlayHandlers`): `ChooseNext`, `TrackEnd` and
  `TrackStart` as step functions on values, plus the RepeatQueue rotation.
- `handlers.dfy` (`Handlers`): the step functions of the command handlers,
  the sweep, identifier normalisation and position formatting.
- `bot.dfy` (`Bot`): the `Bot` class. Each event and command handler is a
  method that updates the real queue objects and the idle map. Its
  contract ties the registry snapshot, the idle map and the player command
  to the step function applied to the old state.

The Lavalink player and the Discord gateway become values:

- Player updates are a `Command` output: play a track, stop with a null
  track, or nothing.
- What the handlers ask of them (is there a player, is a track current,
  did stopping or leaving the voice channel fail) becomes boolean or
  `PlayerView` inputs.
- The clock is an integer `now` passed in.

The model keeps the code's quirks and proves them:

- **RepeatTrack never sets `ok`.** It therefore plays nothing and goes idle,
  instead of replaying. See `RepeatTrackGoesIdle`.
- **An unknown queue-type string goes idle too.** `queue-type` stores any
  string without validation, so such a type stalls playback. See
  `UnknownTypeGoesIdle` and `UnvalidatedTypeStallsPlayback`.
  - As deployed, no user can reach this. `pkg/bot/commands.go:12-165`
    registers 14 slash commands, and none of them is `queue-type`,
    `clear-queue` or `queue`.
  - Those handlers appear only in the dispatch map of
    `pkg/bot/run.go:40-57`, so every queue stays Normal in practice.
- **The idle tracker mixes two meanings.**
  - `onTrackEnd` stores `now + IdleTimeout`.
  - `skip` stores `now`.
  - The sweep reads every entry as an "idle since" instant.
  - As a result, a guild that ran out of tracks at `t` is swept only after
    `t + 2·IdleTimeout` (`TrackEndIdleLastsTwoTimeouts`). A guild whose skip
    ran past the end is swept after `t + IdleTimeout`
    (`SkipIdleLastsOneTimeout`).
- **Under the model's reading of `Skip`, `skip` loses the track `Skip`
  returned while another track is current.** That reading discards
  `n - 1` tracks, then behaves as `Next` (see "Skip semantics" below).
  - `skip` only stops the current track. The stop ends it as `Stopped`,
    on which `onTrackEnd` does nothing. So playback stops under either
    reading (`SkipWhilePlayingLosesTrack`).
  - Under the model's reading, the returned track has also left the queue,
    so it is lost.
  - Under the reading in which `Skip` leaves the returned track queued,
    it would still be there.
- **`skip` fetches, and so creates, the guild's queue before it checks for
  a player.**

The implementation of `Queue` and `QueueManager` is not part of this model.
Their contracts come from the assertions of `pkg/bot/queue_test.go` and from
how the handlers use them:

- **Skip semantics.** `Skip(n)` discards `n - 1` tracks, clamped at
  zero, and then behaves as `Next`. When fewer than `n` tracks are queued,
  the queue ends up empty and nothing is found; with exactly `n` queued,
  the last one is found and the queue ends up empty.
  - The test's `Skip(2)` case (`pkg/bot/queue_test.go:46-59`) names `track3`
    as the returned track. Only the reading "drop `n` tracks and return the
    new head without removing it" satisfies its assertions on distinct
    tracks.
  - The test uses three equal zero tracks, so it passes under either
    reading. `SkipTwoOfThree` states what the model's reading gives on
    distinct tracks: `t2` is returned and `[t3]` is left.
  - The model follows the caller instead. With nothing playing, `skip`
    plays the returned track (`pkg/bot/handlers.go:159-169`). Under the
    other reading that track would stay queued and play a second time.
  - Under the other reading, `n` equal to the queue length would find
    nothing. The model finds the last track.
- **The queue-type values.** `QueueTypeNormal`, `QueueTypeRepeatTrack` and
  `QueueTypeRepeatQueue` are not shown either. The strings `"normal"`,
  `"repeat_track"` and `"repeat_queue"` stand in for them; only their
  distinctness matters.

`lavalink.TrackEndReason.MayStartNext` follows the Lavalink protocol: only
`finished` and `loadFailed` allow a successor.

`pkg/bot/bot.go` as shown declares neither `idleTimes` nor `IdleTimeout` on
`Bot`, although the handlers use both. The model adds them as fields. At
`NewBot` the idle map is taken to exist and be empty, and the timeout is 0
until an option sets it.

## Model

| member | source | states |
|---|---|---|
| `Queues.TakeHead` | pkg/bot/queue_test.go:23-44 | a track is found iff the queue is non-empty; then it is the old head and the rest keeps its order; otherwise the zero track and an empty rest |
| `Queues.TakeAfterSkipping` | pkg/bot/queue_test.go:46-68 | a skip finds a track iff more than `amount - 1` (clamped at 0) tracks are queued; the queue is then the discarded prefix, the found track and the rest; otherwise the zero track and an empty queue |
| `Queues.NextTimesDrops` | pkg/bot/queue_test.go:23-35 | `n` successive `Next` calls drop exactly the first `n` tracks (all of them when fewer are queued) |
| `Queues.SkipIsRepeatedNext` | pkg/bot/queue_test.go:46-59 | `Skip(amount)` equals `amount - 1` dropped `Next` calls followed by one `Next` |
| `Queues.DrainIsFifo` | pkg/bot/queue_test.go:11-35 | calling `Next` until nothing is found yields exactly the added tracks, first in first out |
| `Queues.ClearThenNextFindsNothing` | pkg/bot/queue_test.go:70-79 | after `Add(t1, t2)` and `Clear` on a queue object, `Next` finds nothing and returns the zero track |
| `Queues.ShortShuffleIsIdentity` | pkg/bot/handlers.go:40-52 | any permutation of a queue with at most one track is that queue |
| `Queues.Queue.constructor` | pkg/bot/queue_test.go:84 | a queue literal has no tracks and the given type |
| `Queues.Queue.Add` | pkg/bot/queue_test.go:11-21 | the given tracks are appended in order; the type is kept |
| `Queues.Queue.Next` | pkg/bot/queue_test.go:23-44 | the returned track, flag and remaining tracks are `TakeHead` of the old tracks; the type is kept |
| `Queues.Queue.Skip` | pkg/bot/queue_test.go:46-68 | the returned track, flag and remaining tracks are `TakeAfterSkipping` of the old tracks; the type is kept |
| `Queues.Queue.Shuffle` | pkg/bot/handlers.go:48 | the tracks afterwards are a permutation of those before; the type is kept |
| `Queues.Queue.Clear` | pkg/bot/queue_test.go:70-79 | no tracks remain; the type is kept |
| `Queues.QueueManager.constructor` | pkg/bot/bot.go:36-38 | the registry starts empty |
| `Queues.QueueManager.Get` | pkg/bot/queue_test.go:81-101 | a registered guild gets its very queue object and the registry is unchanged; an unknown guild gets a fresh empty Normal queue, registered under its id and nowhere else |
| `Queues.QueueManager.Delete` | pkg/bot/queue_test.go:103-112 | the guild's entry is removed and every other entry is kept |
| `Queues.AddAppendsInOrder` | pkg/bot/queue_test.go:11-21 | adding `t1, t2` to an empty queue leaves exactly `[t1, t2]` |
| `Queues.NextReturnsHead` | pkg/bot/queue_test.go:23-35 | `Next` on `[t1, t2]` finds `t1` and leaves `[t2]` |
| `Queues.NextOnEmpty` | pkg/bot/queue_test.go:37-44 | `Next` on an empty queue finds nothing and returns the zero track |
| `Queues.SkipTwoOfThree` | pkg/bot/queue_test.go:46-59 | `Skip(2)` on `[t1, t2, t3]` finds `t2` and leaves exactly `[t3]`; the test cannot tell `t2` from `t3`, both being zero tracks |
| `Queues.SkipOnEmpty` | pkg/bot/queue_test.go:61-68 | `Skip(1)` on an empty queue finds nothing and returns the zero track |
| `Queues.ClearEmpties` | pkg/bot/queue_test.go:70-79 | `Clear` on a two-track queue leaves zero tracks |
| `Queues.GetReturnsRegistered` | pkg/bot/queue_test.go:81-90 | `Get` returns the queue object already registered for the guild |
| `Queues.GetCreatesEmptyNormal` | pkg/bot/queue_test.go:92-101 | `Get` on an empty registry returns an empty queue of type Normal |
| `Queues.DeleteRemoves` | pkg/bot/queue_test.go:103-112 | after `Delete` the guild has no entry |
| `PlayHandlers.ChooseNext` | pkg/bot/play_handlers.go:37-47 | `ok` holds iff the type is Normal with a non-empty queue, or RepeatQueue; Normal takes the head; RepeatQueue takes the head of the queue with the finished track appended; RepeatTrack assigns the finished track; without `ok` the queue is unchanged; the type never changes |
| `PlayHandlers.TrackEnd` | pkg/bot/play_handlers.go:27-57 | a reason that forbids a successor changes nothing; otherwise the guild's queue keeps its type, a track is played exactly when the fetched queue is Normal and non-empty or is RepeatQueue, the guild's queue exists afterwards and no other guild's queue changes; a stop is never issued; a play command leaves the idle map alone and conserves the played track plus the remaining queue; no play command sets the guild's idle entry to `now + timeout` and leaves its queue as fetched |
| `PlayHandlers.TrackStart` | pkg/bot/play_handlers.go:19-25 | a non-zero idle entry of the guild is deleted (the guild stays in the map only if its entry was the zero instant), a zero one is kept, and no other guild's entry changes |
| `PlayHandlers.NormalPlaysHead` | pkg/bot/play_handlers.go:37-56 | Normal with `[head] + rest` plays `head`, leaves `rest` and keeps the idle map |
| `PlayHandlers.UnknownGuildGoesIdle` | pkg/bot/play_handlers.go:32-52 | a guild without a queue gets an empty Normal one, plays nothing and is marked idle until `now + timeout` |
| `PlayHandlers.RepeatQueueRotates` | pkg/bot/play_handlers.go:44-46 | RepeatQueue with `[B]` when `A` ends plays `B` and leaves `[A]` |
| `PlayHandlers.RepeatQueueAloneReplays` | pkg/bot/play_handlers.go:44-46 | RepeatQueue with an empty queue when `A` ends plays `A` and leaves the queue empty |
| `PlayHandlers.RepeatTrackGoesIdle` | pkg/bot/play_handlers.go:41-52 | RepeatTrack plays nothing, keeps the queue and marks the guild idle |
| `PlayHandlers.UnknownTypeGoesIdle` | pkg/bot/play_handlers.go:37-52 | a type other than the three known ones plays nothing, keeps the queue and marks the guild idle |
| `PlayHandlers.RepeatQueueRotation` | pkg/bot/play_handlers.go:44-46 | after `k` natural track ends in RepeatQueue mode (`k` at most the cycle length) the queue plus the playing track is the cycle rotated left by `k`, and the tracks played are the first `k` of the cycle, in order |
| `PlayHandlers.RepeatQueueFullCycle` | pkg/bot/play_handlers.go:44-54 | after one full cycle of track ends RepeatQueue is back in its initial state, having played every track exactly once, in queue order |
| `Handlers.SkipAmount` | pkg/bot/handlers.go:135-138 | the given amount, or 1 when the option is absent |
| `Handlers.SkipStep` | pkg/bot/handlers.go:126-174 | the queue is fetched (so created) even without a player; without a player nothing else happens; with one, the queue becomes `TakeAfterSkipping` of itself; a current track is always stopped; with no current track the found track, if any, is played; the idle map changes only by `g := now`, and only when a track was current, the stop succeeded and nothing was found |
| `Handlers.SkipWhilePlayingLosesTrack` | pkg/bot/handlers.go:140-157 | while a track is current, `skip` removes the skipped-to track from the queue and issues only the stop; the `Stopped` track end that follows issues no command and changes nothing, so that track is never played |
| `Handlers.SkipPastEndWhilePlayingGoesIdle` | pkg/bot/handlers.go:140-154 | skipping past the end while a track plays empties the queue and marks the guild idle as of `now` |
| `Handlers.SetQueueType` | pkg/bot/handlers.go:176-188 | the guild's queue takes the raw string as its type and keeps its tracks; no other guild's queue changes |
| `Handlers.ClearQueue` | pkg/bot/handlers.go:190-198 | the guild's queue loses every track and keeps its type; no other guild's queue changes |
| `Handlers.UnvalidatedTypeStallsPlayback` | pkg/bot/handlers.go:184 | once a type outside the three known ones is stored, every natural track end plays nothing and marks the guild idle |
| `Handlers.DisconnectStep` | pkg/bot/handlers.go:314-332 | leaving is requested iff there is a player; the guild's idle entry is gone afterwards iff it was absent or the leave request succeeded; no other entry changes |
| `Handlers.Sweep` | pkg/bot/handlers.go:482-495 | the sweep partitions the idle map: exactly the entries with `now - t > timeout` are removed and disconnected, the rest are kept unchanged and all satisfy `now - t <= timeout` |
| `Handlers.SweepIsIdempotent` | pkg/bot/handlers.go:483-495 | a second sweep at the same instant removes nothing |
| `Handlers.TrackEndIdleLastsTwoTimeouts` | pkg/bot/play_handlers.go:49-52 | an idle entry written by `onTrackEnd` at `t` is swept at `now` iff `now > t + 2·timeout` |
| `Handlers.SkipIdleLastsOneTimeout` | pkg/bot/handlers.go:149-150 | an idle entry written by `skip` at `t` is swept at `now` iff `now > t + timeout` |
| `Handlers.TrackStartCancelsSweep` | pkg/bot/play_handlers.go:19-25 | after a track starts, the sweep no longer disconnects the guild |
| `Handlers.UrlPatternIsScheme` | pkg/bot/handlers.go:36 | the anchored URL pattern matches a string iff it starts with `http://` or `https://` |
| `Handlers.SearchPatternIsPrefix` | pkg/bot/handlers.go:37 | the search pattern matches iff two non-newline characters, `search:` and one more non-newline character begin the string |
| `Handlers.NormaliseIdentifier` | pkg/bot/handlers.go:361-367 | a chosen source is applied as the prefix; without one, the identifier is unchanged iff it matches the URL or the search pattern, and otherwise gets the YouTube search prefix |
| `Handlers.NormaliseIsIdempotent` | pkg/bot/handlers.go:363-367 | with the usual `type:query` prefixing, normalising a non-empty identifier whose first character is no newline a second time changes nothing |
| `Handlers.NormaliseEmptyQueryTwice` | pkg/bot/handlers.go:365-366 | an empty identifier becomes `ytsearch:`, which matches neither pattern and is prefixed again to `ytsearch:ytsearch:` |
| `Handlers.NatDecimalRoundTrip` | pkg/bot/handlers.go:358 | `%d` of a natural number consists of digits only, has no leading zero (it is `0` exactly when the number is 0) and reads back to the number |
| `Handlers.MinutesSecondsRoundTrip` | pkg/bot/handlers.go:358 | `%d:%02d` of natural minutes and seconds below 60 puts the colon three characters from the end, both numbers read back, and only the seconds are zero-padded |
| `Handlers.FormatPosition` | pkg/bot/handlers.go:354-359 | position 0 gives `0:00`; any other position with non-negative minutes and a seconds part in 0..59 gives the minutes, a colon and the two-digit seconds, each readable back, with no leading zero on the minutes |
| `Handlers.ZeroPositionCaseIsRedundant` | pkg/bot/handlers.go:355-358 | when the library reports 0 minutes and 0 seconds for position 0, the special case agrees with the general format |
| `Bot.AfterVoiceState` | pkg/bot/bot.go:104-112 | only the bot's own update with no channel changes the registry, and then it removes exactly that guild; every kept entry is unchanged |
| `Bot.ClearAll` | pkg/bot/bot.go:118-122 | every registered queue loses its tracks, keeps its type and stays registered |
| `Bot.Dispatch` | pkg/bot/bot.go:91-102 | a handler is found iff the command name is registered, and then it is the one registered under that name |
| `Bot.WithIdleTimeout` | pkg/bot/options.go:50-55 | the option never fails and sets the timeout to its argument, whatever the configuration was |
| `Bot.ApplyOptions` | pkg/bot/bot.go:134-146 | no options succeed with the configuration unchanged; an error result is what one option returned on the configuration left by the options before it, which all succeeded; a success means every prefix of the options succeeded |
| `Bot.ApplyOptionsAppend` | pkg/bot/bot.go:134-146 | applying `first + rest` is applying `first` and then, only if it returned no error, `rest` to its result |
| `Bot.ErrorStopsParsing` | pkg/bot/bot.go:138-142 | an option after a failing one never runs, and the first error is the result |
| `Bot.LastIdleTimeoutWins` | pkg/bot/bot.go:135-143 | a later `WithIdleTimeout` overrides earlier options unless one of them failed |
| `Bot.NewBotStartsEmpty` | pkg/bot/bot.go:35-38 | `NewBot` without options, with the client created, returns a bot whose registry holds no queues |
| `Bot.Bot.constructor` | pkg/bot/bot.go:35-41 | a new bot has an empty registry, no idle guilds and a zero timeout |
| `Bot.Bot.NewBot` | pkg/bot/bot.go:34-89 | a client-creation error returns no bot and that error joined to `error creating the bot client`, before any option runs; otherwise the bot is returned iff the options succeed, with the given application id, an empty registry, no idle guilds and the configured timeout, and else no bot and the first option error, wrapped as `options parsing failed: ...` |
| `Bot.Bot.ParseOptions` | pkg/bot/bot.go:134-146 | the loop leaves the timeout and the error that the in-order fold `ApplyOptions` gives; the first error stops it |
| `Bot.Bot.OnTrackStart` | pkg/bot/play_handlers.go:19-25 | the idle map becomes `TrackStart` of the old one |
| `Bot.Bot.OnTrackEnd` | pkg/bot/play_handlers.go:27-57 | the registry snapshot, the idle map and the command are those of `TrackEnd` on the old state; no other guild's queue object is replaced |
| `Bot.Bot.ChooseFor` | pkg/bot/play_handlers.go:32-47 | fetching the guild's queue and running the switch on it yields `ChooseNext` of the fetched queue, written back to that guild only |
| `Bot.Bot.PickNext` | pkg/bot/play_handlers.go:33-47 | the switch on one queue object yields the track, flag and queue contents that `ChooseNext` gives |
| `Bot.Bot.SkipCommand` | pkg/bot/handlers.go:126-174 | the registry snapshot, the idle map and the command are those of `SkipStep` on the old state |
| `Bot.Bot.SkipQueueOf` | pkg/bot/handlers.go:128-140 | fetching the queue and calling `Skip` yields `TakeAfterSkipping` of the fetched queue, written back to that guild only |
| `Bot.Bot.SkipDecision` | pkg/bot/handlers.go:141-173 | a current track is stopped; otherwise the found track, if any, is played; only a successful stop with nothing found marks the guild idle as of `now` |
| `Bot.Bot.QueueTypeCommand` | pkg/bot/handlers.go:176-188 | the registry snapshot becomes `SetQueueType` of the old one |
| `Bot.Bot.ClearQueueCommand` | pkg/bot/handlers.go:190-198 | the registry snapshot becomes `ClearQueue` of the old one |
| `Bot.Bot.ShuffleCommand` | pkg/bot/handlers.go:40-52 | the guild's queue becomes a permutation of its old tracks with the same type; no other guild's queue changes |
| `Bot.Bot.DisconnectCommand` | pkg/bot/handlers.go:314-332 | the idle map and the leave request are those of `DisconnectStep` |
| `Bot.Bot.Debug` | pkg/bot/handlers.go:434-495 | without application info or for a caller other than the owner nothing changes; otherwise the loop deletes while iterating, and the kept idle entries and the disconnected guilds are exactly `Sweep` of the old idle map |
| `Bot.Bot.OnVoiceStateUpdate` | pkg/bot/bot.go:104-112 | the queue map loses exactly guild `g`'s entry on the bot's own update with no channel and is otherwise unchanged, so every kept guild keeps its very queue object; the registry snapshot becomes `AfterVoiceState` of the old one; the idle map is not touched |
| `Bot.Bot.Shutdown` | pkg/bot/bot.go:118-122 | the loop clears every registered queue: the snapshot becomes `ClearAll` of the old one |

## Left out

- Discord gateway and REST calls: message creation, interaction responses,
  `UpdateVoiceState`. Their effects are reduced to a returned command, a
  "leave requested" flag or a "disconnected guilds" set. Their failures are
  boolean inputs where the handler branches on them.
- Lavalink player and node operations: `player.Update`, `ExistingPlayer`,
  `Track()`, `Position()`, node versions and cookies. A play or stop becomes
  a `Command`, and the player's presence and current track become a
  `PlayerView` input. A failed play command in `onTrackEnd` is only logged,
  so the model gives it no effect.
- The `play`, `volume`, `pause`, `seek`, `stop`, `connect`, `players`,
  `nowPlaying`, `queue`, `bass-boost` and `source` handlers, apart from
  identifier normalisation and `formatPosition`. They are network calls and
  message formatting. The bass-boost equaliser table is floating-point
  configuration handed to a library.
- `lavalink.SearchType.Apply`, `Duration.Minutes` and `Duration.SecondsPart`:
  library code that is not shown. They are function parameters of
  `NormaliseIdentifier` and `FormatPosition`.
- Handlers.FormatPosition: the read-back property is stated only for
  non-negative minutes and a seconds part in 0..59, because the library's
  `Minutes` and `SecondsPart` are not shown. For other values the function
  still computes the `%d:%02d` text, with a sign for negative numbers.
- Queues.Queue.Shuffle: the random order is not modelled. The method picks
  some permutation, and its contract states only that the result is a
  permutation with the same type. `Bot.Bot.ShuffleCommand` inherits this.
- The implementation file of `Queue`/`QueueManager` is not part of this
  model. `Skip` with an amount below 1 discards nothing and then behaves as
  `Next`; this is a modelling choice.
- Concurrency: the callbacks arrive concurrently and the maps are not
  synchronised. The model is a single sequential stream of events.
- `time.Now`: an integer clock `now` is passed in. The zero `time.Time`,
  which `onTrackStart` tests with `IsZero`, is the instant 0.
- In Go, `time.Duration` is a 64-bit count of nanoseconds. A `time.Time`
  holds seconds since year 1 plus nanoseconds. `Sub` and `time.Since`
  saturate at the largest and smallest durations. The model's clock and
  timeouts are unbounded integers, so it has neither overflow nor
  saturation. The two differ only for spans of about three centuries.
- PlayHandlers.MayStartNext stands in for
  `lavalink.TrackEndReason.MayStartNext`, library code that is not part of
  this model. It follows the Lavalink protocol's end reasons: only
  `finished` and `loadFailed` allow a successor.
- PlayHandlers.TrackEnd: nothing requires `now + timeout` to differ from
  the zero instant. With `now = 0` and `timeout = 0` the model writes
  instant 0, and `onTrackStart` then keeps the entry.
  - In the source `time.Now().Add(d)` is never the zero time, so this case
    cannot arise there.
  - The model leaves it unconstrained rather than add a precondition the
    source does not state.
- Bot.Bot.NewBot: the idle map is taken to exist from the start.
  `pkg/bot/bot.go:35-41` as shown creates only the queue map, and a Go map
  that is never created is nil. Writing to it would then panic
  (`pkg/bot/play_handlers.go:50`, `pkg/bot/handlers.go:150`). Panics are
  not modelled.
  - The cookie-jar failure (`pkg/bot/bot.go:44-47`), a fatal log that
    stops the process, is not modelled either.
- Deleting a guild's queue on a voice-state update does not evict its idle
  entry. The source does not do it either, and the model keeps that.
- `pkg/bot/options.go`: `AddNode` is a network setting and is not part of
  this model. `WithIdleTimeout` is the only option modelled.
- `pkg/bot/commands.go`, `pkg/bot/run.go`, `main.go`, `pkg/bot/logger.go`
  and `pkg/version`: the command table, client wiring, logging and
  build-information formatting are not part of this model.
