# Music player core of InteractiveDiscordBot, in Dafny

This project models three pieces of the Discord music bot.

- **The playback coordinator `MusicPlayer`** (`Player.MusicPlayer`). It owns a track queue and a single
  idle-disconnect timer handle. On every queue change it decides whether to start the current track,
  and then it republishes the current song and the remaining queue. It reacts to the backend
  dispatcher's `start`, `end(reason)` and `error` events. It forwards pause, resume, stop, skip, volume,
  enqueue, clear and shuffle. Everything it says goes onto one outbound message stream (`published`).
  Every call it makes on the stream backend is recorded in order (`backendCalls`).
- **The command cooldown gate** of `Bot.onInteractionCreate` (`BotGate.Bot`). This is a per-command,
  per-user rate limiter over a map of maps that is updated in place, followed by the permission check
  and the error replies.
- **Playlist normalisation** in the `Playlist` constructor (`Playlists`). Hidden videos are dropped, the
  result is capped at 100 entries, and each video becomes a song with a watch URL.

Modules:

- `Wrappers`: `Option`, and `Outcome` (a call returned, or threw with a message).
- `Text`: the `includes` test on strings.
- `PlayerTypes`: tracks, the four message types, structured message texts, end reasons, backend calls.
- `TrackQueue`: the queue as a value, specified only by what the player relies on.
- `Player`: the coordinator class.
- `PlayerScenarios`: whole runs from a fresh player.
- `BotGate`: the cooldown gate class.
- `Playlists`: the normalisation functions and lemmas.

How events are modelled:

- Each event is one atomic step.
- The queue's change callback runs synchronously inside the mutating call (`QueueChanged`).
- `startStreaming` runs up to its `await` (`StartStreaming`). It raises `startPending` and records a
  `playTrack` call.
- `PlayTrackSettled(i, outcome)` is that `await` resuming. On success the listeners are attached. On
  failure the guard is cleared and one error naming the track is published.
- The listeners are the methods `OnStart`, `OnEnd` and `OnError`. `start` and `end` are one-shot.
- The timer firing is `TimerFire`.
- Backend failures are `Outcome` parameters. So are the clock (`now`), the permission verdict, and the
  order a shuffle chooses.

`ObservableQueue` and `StreamManager` are not part of this model. The queue is specified by contract
only:

- `getCurrent` is the track under the cursor, or `undefined` when the cursor is -1.
- `getRemaining` is the tracks after the cursor.
- `size()` is their count.
- Appends keep the cursor. Appending to an empty queue makes the first appended track current, which
  lets enqueueing into an idle player start it.
- `clear` empties the queue.
- `shuffle` permutes only the remaining tracks.
- A move lands within [-1, length-1], monotonically, and lands exactly `amount` away whenever that
  position exists. Moving back past the first track rewinds the queue to cursor -1: tracks remain but
  none is current.

The cursor is -1 when the queue is empty, and may be -1 with tracks queued after a rewind. In that state
`resumeStream` hands `undefined` to `startStreaming` (lines 86-87). The model carries that `undefined`
through: `playTrack` receives it, and each later use of `track.title` throws. The failure report at
line 153, the announcement at line 128 and the "Played" message at line 132 are therefore not published,
and the steps after them do not run.

In these places the model follows the code as written:

- The `error` listener leaves `startPending` raised. So an error before `start`, followed by the end of
  that stream, blocks automatic starts on queue changes (`PlayerScenarios.ErrorBeforeStartKeepsGuard`)
  until some stream's `start` listener fires or a start request fails. `resumeStream` ignores the guard
  and can clear it that way (`PlayerScenarios.ResumeClearsGuard`).
- The idle timer, as written, never disconnects (see Findings).
- `stopStream`, `skipForward` and `skipPrevious` do not catch backend errors. An error from `stop()`
  therefore prevents `disconnect()`. An error from `skip()` leaves the cursor where it was.
- After the last track ends naturally the cursor stays on it (line 142 only moves while tracks remain),
  and appending does not move the cursor. Enqueueing a new track then starts the finished track again
  before the new one (`PlayerScenarios.EnqueueAfterLastEnded`).
- The cooldown deletion is a Node timer, which waits 1 ms for any delay above 2^31 - 1 ms. A cooldown
  longer than about 24.8 days is therefore forgotten after 1 ms (`BotGate.LongCooldownForgotten`).

## Model

| member | source | states |
|---|---|---|
| `Text.Contains` | src/structs/Bot.ts:104 | `includes`: a text contains only pieces no longer than itself, and always contains the empty piece |
| `Text.ContainsOccurs` | src/structs/Bot.ts:104 | `includes` finds a piece only where it really occurs: the text splits into a prefix, the piece and a suffix |
| `Text.ContainsMiddle` | src/structs/Bot.ts:104 | `includes` finds every piece a text is built around (prefix + piece + suffix); applied to the texts of MusicPlayer.ts:128, 132 and 153 |
| `PlayerTypes.Render` | src/libs/MusicPlayer.ts:72-153 | the string each structured message text stands for: the fixed status words, the farewell, the stop notice and the announcements around a title |
| `PlayerTypes.AnnouncementsNameTrack` | src/libs/MusicPlayer.ts:126-155 | the "now playing" and "Played" announcements and the start-failure error all contain the track title |
| `TrackQueue.Current` | src/libs/MusicPlayer.ts:41-43 | the current track is absent exactly when the cursor is -1 (always so for an empty queue), and otherwise is the track under the cursor |
| `TrackQueue.Remaining` | src/libs/MusicPlayer.ts:37-39 | the remaining tracks are the tracks after the cursor, one for one and in order |
| `TrackQueue.Decomposition` | src/libs/MusicPlayer.ts:37-43 | the queue is the played tracks, then the current track, then the remaining tracks; with no current track every track remains |
| `TrackQueue.Size` | src/libs/MusicPlayer.ts:112 | `size()` is the number of remaining tracks: all of them when there is no current track, fewer than all otherwise |
| `TrackQueue.AddAll` | src/libs/MusicPlayer.ts:57-63 | appending keeps the cursor and the current track and extends the remaining tracks; on an empty queue the first appended track becomes current |
| `TrackQueue.Cleared` | src/libs/MusicPlayer.ts:65-67 | after `clear` there is no current track and nothing remains |
| `TrackQueue.Shuffled` | src/libs/MusicPlayer.ts:97-99 | shuffling keeps the current track and the played prefix, puts the chosen permutation after them, and keeps size and multiset |
| `TrackQueue.ForwardLanding` | src/libs/MusicPlayer.ts:101-104 | where `moveForward(amount)` (also at line 143) may leave the cursor: within [-1, length-1], never behind the old cursor, exactly `amount` on whenever that position exists |
| `TrackQueue.BackLanding` | src/libs/MusicPlayer.ts:106-109 | where `moveBack(amount)` may leave the cursor: within [-1, length-1], never ahead of the old cursor, exactly `amount` back whenever that position (including -1) exists |
| `TrackQueue.MovedTo` | src/libs/MusicPlayer.ts:101-109 | a cursor move keeps the tracks and leaves a well-formed queue |
| `TrackQueue.LandingsExist` | src/libs/MusicPlayer.ts:101-109 | a legal landing exists for every forward and backward move |
| `TrackQueue.AdvanceOne` | src/libs/MusicPlayer.ts:141-145 | `moveForward()` with tracks remaining makes the first remaining track current and shortens the rest by one |
| `TrackQueue.RewindBeforeStart` | src/libs/MusicPlayer.ts:106-109 | moving back past the first track lands on -1: no current track, and every track remains |
| `TrackQueue.MovesAreMonotone` | src/libs/MusicPlayer.ts:101-109 | moving forward never increases `size()` and moving back never decreases it; with enough tracks, forward by n lowers it by exactly n |
| `Player.StartGate` | src/libs/MusicPlayer.ts:21 | the queue-change guard: a current track, no start pending, not playing, not paused |
| `Player.Advances` | src/libs/MusicPlayer.ts:141-142 | the end handler moves the cursor only when the reason is neither "forceStop" nor "skip" and tracks remain |
| `Player.Republished` | src/libs/MusicPlayer.ts:24-25 | two status messages: the current song, then the remaining queue |
| `Player.Reported` | src/libs/MusicPlayer.ts:49-55 | a caught backend call publishes its success messages, or exactly one error carrying the thrown text |
| `Player.MusicPlayer.constructor` | src/libs/MusicPlayer.ts:13-19 | a new player has an empty queue, no pending start, no timer, and has published nothing |
| `Player.MusicPlayer.BackendReports` | src/libs/MusicPlayer.ts:29-35 | `playing` and `paused` are the backend's values, which the player only reads |
| `Player.MusicPlayer.QueueChanged` | src/libs/MusicPlayer.ts:20-26 | `playTrack(current)` is requested exactly when a current track exists and nothing is pending, playing or paused; the two status messages are always appended |
| `Player.MusicPlayer.StartStreaming` | src/libs/MusicPlayer.ts:118-121 | the guard is raised, and one `playTrack(track)` is requested and awaited, also for an `undefined` track |
| `Player.MusicPlayer.PlayTrackSettled` | src/libs/MusicPlayer.ts:121-156 | on success the listeners are attached and the guard is unchanged; on failure the guard is cleared and exactly one error naming the track is published, or none when the track was `undefined` |
| `Player.MusicPlayer.OnStart` | src/libs/MusicPlayer.ts:123-130 | the guard is cleared; "playing" is published, then the announcement naming the track (not for an `undefined` track); the listener is used up |
| `Player.MusicPlayer.OnEnd` | src/libs/MusicPlayer.ts:131-146 | "Played" first; with nothing remaining the one timer is created if absent and re-armed, never a second one; the cursor advances by one exactly when the reason is neither forced stop nor skip and tracks remain, and then the change callback runs; otherwise nothing else changes; for an `undefined` track only the listener is used up |
| `Player.MusicPlayer.ArmIdleTimer` | src/libs/MusicPlayer.ts:134-139 | afterwards exactly one handle exists, armed, with the 15-minute delay; an existing handle is refreshed, not replaced |
| `Player.MusicPlayer.OnError` | src/libs/MusicPlayer.ts:147-150 | one error message is published and the guard is left unchanged |
| `Player.MusicPlayer.DisconnectIfReasonable` | src/libs/MusicPlayer.ts:111-116 | farewell and `disconnect()` exactly when `size()` is 0, and what `disconnect()` throws propagates; otherwise nothing |
| `Player.MusicPlayer.TimerFire` | src/libs/MusicPlayer.ts:136 | as written, the timer's callback runs without the player as receiver, so it publishes nothing and calls nothing |
| `Player.MusicPlayer.TimerFireBound` | src/libs/MusicPlayer.ts:111-116 | with the callback bound to the player, the fire disconnects exactly when the queue is still empty, and what `disconnect()` throws propagates |
| `Player.MusicPlayer.SetVolume` | src/libs/MusicPlayer.ts:49-55 | the volume is forwarded; a failure publishes one error and changes nothing else |
| `Player.MusicPlayer.PauseStream` | src/libs/MusicPlayer.ts:69-76 | "paused" only if `pause()` returned, otherwise exactly one error |
| `Player.MusicPlayer.ResumeStream` | src/libs/MusicPlayer.ts:78-89 | if paused: `resume()` and "resumed" (or one error), with queue and guard untouched; else with tracks remaining: start the current track whatever the guard says, `undefined` after a rewind; else no change |
| `Player.MusicPlayer.StopStream` | src/libs/MusicPlayer.ts:91-95 | one info message, then `stop()` and then `disconnect()`, in that order and whatever the state; a throwing `stop()` propagates before `disconnect()` |
| `Player.MusicPlayer.Enqueue` | src/libs/MusicPlayer.ts:57-59 | the track is appended and the change callback runs |
| `Player.MusicPlayer.EnqueueAll` | src/libs/MusicPlayer.ts:61-63 | the tracks are appended in order and the change callback runs |
| `Player.MusicPlayer.Clear` | src/libs/MusicPlayer.ts:65-67 | the queue is emptied; no start is possible; only the two status messages are published |
| `Player.MusicPlayer.Shuffle` | src/libs/MusicPlayer.ts:97-99 | the remaining tracks take the chosen order and the change callback runs |
| `Player.MusicPlayer.SkipForward` | src/libs/MusicPlayer.ts:101-104 | `skip()` is called before the cursor moves forward by `amount`; a throwing `skip()` leaves the queue as it was |
| `Player.MusicPlayer.SkipPrevious` | src/libs/MusicPlayer.ts:106-109 | `skip()` is called before the cursor moves back by `amount`, possibly to -1; a throwing `skip()` leaves the queue as it was |
| `PlayerScenarios.StartOne` | src/libs/MusicPlayer.ts:20-26 | enqueueing into an idle player makes exactly one `playTrack`; after `start` it publishes "playing" |
| `PlayerScenarios.EnqueueWhilePlaying` | src/libs/MusicPlayer.ts:20-26 | enqueueing while playing republishes the queue and starts nothing |
| `PlayerScenarios.RollOver` | src/libs/MusicPlayer.ts:131-146 | a natural end with a track queued moves the cursor to it and starts it |
| `PlayerScenarios.TwoChangesBeforeStart` | src/libs/MusicPlayer.ts:20-23 | two queue changes before `start` make only one `playTrack` |
| `PlayerScenarios.ErrorBeforeStartKeepsGuard` | src/libs/MusicPlayer.ts:147-150 | an error before `start` leaves the guard raised, so a later enqueue starts nothing |
| `PlayerScenarios.ResumeClearsGuard` | src/libs/MusicPlayer.ts:86-87 | with the guard left raised, `resumeStream` starts the current track anyway; its `start` clears the guard, so the next natural end starts the queued track |
| `PlayerScenarios.StartFails` | src/libs/MusicPlayer.ts:151-156 | a failed `playTrack` clears the guard and publishes exactly one error naming the track |
| `PlayerScenarios.IdleTimerAsWritten` | src/libs/MusicPlayer.ts:134-139 | the timer fires with the queue still empty, yet nothing is published and `disconnect()` is never called |
| `PlayerScenarios.IdleTimerBound` | src/libs/MusicPlayer.ts:111-116 | with the callback bound, the fire publishes the farewell and makes exactly one `disconnect()` |
| `PlayerScenarios.EnqueueAfterLastEnded` | src/libs/MusicPlayer.ts:20-22 | after the last track ends naturally, enqueueing another starts the finished track again |
| `PlayerScenarios.ResumeAfterRewind` | src/libs/MusicPlayer.ts:86-87 | after a rewind, resuming hands `undefined` to `playTrack`; its failure clears the guard and publishes nothing |
| `PlayerScenarios.ResumeWhilePaused` | src/libs/MusicPlayer.ts:78-85 | resuming a paused player calls `resume()`, reports "resumed" and starts nothing |
| `BotGate.ErrorString` | src/structs/Bot.ts:105 | `error.toString()` joins name and message with ": ", or gives whichever of the two is not empty |
| `BotGate.CooldownAmount` | src/structs/Bot.ts:72 | the cooldown is whole seconds in ms, and it is 1000 ms exactly when the cooldown is missing, 0 or 1 |
| `BotGate.ErrorReplyText` | src/structs/Bot.ts:103-108 | an error whose message contains "permissions" is answered with its string form; any other error gets "Command errored" |
| `BotGate.CoolingDown` | src/structs/Bot.ts:74-79 | a user is refused while a non-zero timestamp plus the cooldown lies after `now` |
| `BotGate.AfterCooldown` | src/structs/Bot.ts:93-108 | the command executes only when the permission check passes; a denial throws the missing-permissions error; every error, also one thrown by `execute`, is answered with `ErrorReplyText` of that error |
| `BotGate.Bot.constructor` | src/structs/Bot.ts:22-26 | no cooldowns are recorded and no deletions are scheduled |
| `BotGate.Bot.OnInteraction` | src/structs/Bot.ts:58-92 | non-chat or unknown commands change nothing; a command's map is created on first use and never replaced; a user still cooling down is refused with no state change; otherwise only that user's entry becomes `now` and its deletion is scheduled after the cooldown, as a Node timer clamps it |
| `BotGate.TimerDelay` | src/structs/Bot.ts:91 | a Node timer waits the requested delay when it lies in [1, 2^31 - 1] ms, and 1 ms otherwise |
| `BotGate.Bot.Expire` | src/structs/Bot.ts:91 | the scheduled deletion fires no earlier than its timer delay after it was scheduled, and removes only that user's entry from that command's map |
| `BotGate.LongCooldownForgotten` | src/structs/Bot.ts:72-91 | with a cooldown above 2^31 - 1 ms the deletion fires after 1 ms, and the same user is accepted again 1 ms later |
| `BotGate.RepeatWithinCooldown` | src/structs/Bot.ts:70-91 | a repeat within the cooldown is refused with the time left; once the cooldown has passed and the deletion fired, the same user is accepted again |
| `Playlists.Hidden` | src/structs/Playlist.ts:16 | the two titles the filter drops, "Private video" and "Deleted video" |
| `Playlists.Visible` | src/structs/Playlist.ts:16 | the filter keeps no hidden video and never lengthens the list |
| `Playlists.Take` | src/structs/Playlist.ts:17 | `slice(0, n)` is the prefix of length min(n, length) |
| `Playlists.ToSong` | src/structs/Playlist.ts:18-24 | a song keeps the video title, and its URL is the watch prefix followed by the video id |
| `Playlists.IdOf` | src/structs/Playlist.ts:21 | a watch URL splits into the prefix and the id |
| `Playlists.ToSongs` | src/structs/Playlist.ts:18-24 | the map step is element by element, and the length is kept |
| `Playlists.VisibleAppend` | src/structs/Playlist.ts:16 | filtering distributes over concatenation |
| `Playlists.VisibleOne` | src/structs/Playlist.ts:16 | a single video is kept exactly when it is not hidden |
| `Playlists.VisibleFromInput` | src/structs/Playlist.ts:16 | every kept video comes from the input |
| `Playlists.VisibleKeepsShown` | src/structs/Playlist.ts:16 | every input video that is not hidden is kept |
| `Playlists.Songs` | src/structs/Playlist.ts:15-24 | at most 100 songs, exactly min(100, k) for k visible videos, in order, with titles and watch URLs taken from those videos, and none titled "Private video" or "Deleted video" |
| `Playlists.SongsComeFromShownVideos` | src/structs/Playlist.ts:15-24 | every song was built from a video of the playlist that is not hidden |
| `Playlists.CapCountsOnlyShown` | src/structs/Playlist.ts:15-17 | the cap applies after the filter: once 100 visible videos are seen, later videos change nothing |
| `Playlists.HiddenVideosIgnored` | src/structs/Playlist.ts:15-17 | inserting a hidden video anywhere does not change the songs |
| `Playlists.UrlRoundTrip` | src/structs/Playlist.ts:21 | the video id is recovered from the song's URL |

## Left out

- Player volume getter (`volume`, `getVolume`): the backend's volume is not modelled. `SetVolume` only records the call.
- `subscribe` on the player: the `published` log stands for the RxJS subject. Late subscribers and delivery to several observers are not modelled.
- `trackError` reporting is left out. It is fire-and-forget and does not affect control flow.
- `ObservableQueue` internals are not part of this model: the clamp policy of moves and the randomness of shuffle. The landing index and the shuffled order are parameters constrained by the queue's contract.
- `StreamManager`, voice connections and audio dispatch are not part of this model. `playing` and `paused` are set by `BackendReports`. Each backend call's outcome is a parameter: `playTrack`, `pause`, `resume`, `setVolume`, `stop`, `skip` and both `disconnect()` calls. `getVolume` is not modelled.
- Reentrancy and async interleavings are left out. Each event is one atomic step. The queue callback runs inside the mutation that triggers it.
- Player.MusicPlayer.ArmIdleTimer: the timer's countdown and elapsed time are not modelled. A handle records only its delay and whether it is armed. Firing is an explicit event.
- BotGate.Bot.OnInteraction: the "please wait" reply carries the milliseconds left, not the `toFixed(1)` seconds text, because float formatting is left out. `reply(...).catch` and `console.error` are left out. `execute` is modelled by whether it throws synchronously. The missing-permissions exception and `checkPermissions` are inputs, because their source is not part of this model.
- Bot outside the gate is left out: `registerSlashCommands` (file system, dynamic import, REST), login and event wiring.
- `Playlist.from` and its URL pattern are left out; they only choose which network call to make. The song `duration` (`duration / 1000`, floating point) is left out.
- Player.MusicPlayer.Enqueue: `ObservableQueue` is not part of this model. The append is taken to leave the cursor where it is, also on a finished last track; if the real queue moves it instead, the replay shown by `PlayerScenarios.EnqueueAfterLastEnded` does not happen.
- End reasons: the end listener only tests for the texts `"forceStop"` and `"skip"`. Every other reason is `Other` with its text, whose type excludes those two texts; what the backend actually sends is not part of this model.
- The unhandled promise rejection and the errors thrown inside listeners after reading `title` of `undefined` are not modelled beyond their effect: what they publish and what they skip.
- A thrown value is represented by one string (`Raw`, `StartFailed`'s error part). The source publishes different things on failure: the caught Error object itself at MusicPlayer.ts:53, 74 and 84, `e.message` at line 149, and `${error}` at line 153.
- Player.MusicPlayer.SkipForward and Player.MusicPlayer.SkipPrevious: `amount` is a natural number, and the default 1 is passed explicitly. Negative or fractional amounts are not modelled, because the queue's behaviour for them is not part of this model.
- Integers are unbounded: JavaScript numbers (timestamps, cooldowns) are modelled as `int` with no floating-point rounding. The one bound that changes behaviour, Node's clamp of timer delays, is modelled (`BotGate.TimerDelay`).

## Findings

| source | as written | input that shows it | evidently intended | confidence | as-written member | corrected member |
|---|---|---|---|---|---|---|
| src/libs/MusicPlayer.ts:136 | `setTimeout(this.disconnectIfReasonable, …)` passes the method without its receiver. When the timer fires, `this` is the timer handle, `this.queue` is undefined, and the guard at line 112 fails. | Play one track to a natural end with nothing queued, then let the 15-minute timer fire while the queue is still empty. | The farewell message and one `disconnect()` call (the method bound to the player). | high; not executed | `PlayerScenarios.IdleTimerAsWritten` | `PlayerScenarios.IdleTimerBound` |
