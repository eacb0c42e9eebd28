# Aetheryte player — a Dafny model

Aetheryte is an ambient sound player. Two chains play through one audio
engine:

- The **hum** chain loops a single hum file on its own player node. Each time
  the node has consumed a hum, its completion callback asks the hum scheduler
  for the next one.
- The **whir** chain plays one-shot whirs on a second player node. Each whir
  is one of five files, chosen at random. Before it is queued, the whir
  time-pitch unit gets a random playback rate and the node gets a random gain.
  Its completion callback draws a pause from the selected delay profile, waits
  it out, and then asks the whir scheduler again.

Both schedulers are guarded. They queue a sound only while the player is
playing and their chain is enabled. `pause` clears `playing`, so callbacks
and tasks that run while the player is stopped find the guard closed and
queue nothing. A loop whose callback or task is still pending is only
suspended, not ended (see below).

The model has three modules:

- `WhirDelays` holds the delay profiles and the millisecond range each one
  draws from.
- `PlayerSpec` is the player as values. A `PlayerState` holds the player's
  flags, the two scheduling latches, the engine, and each chain's node.
  - A node is playing or paused, has a volume, and keeps an append-only log of
    the sounds it was asked to play, plus a count of sounds already consumed.
  - The chain's pending detached tasks are part of the state too.
  - Each operation of the player is a transition function.
  - The asynchronous parts are separate events:
    - A completion callback consumes one queued sound and leaves a pending task.
    - A pending task later runs the scheduler.
    - Pending whir tasks may run in any order.
  - Random draws are parameters restricted to the range they are drawn from:
    the file, the rate, the gain, and the next pause.
  - A failing engine start is a boolean parameter.
  - `Step`, `ValidTrace` and `Run` compose events into traces. The lemmas about
    traces carry the player's promises: cancellation on pause, muting, and
    invariants.
- `AudioPlayer.Player` is the player object as a class. Its fields are the ones
  the source stores, plus the engine and node state it changes. Each method
  updates the fields step by step, in the source's order. Its postcondition
  states that the new `State()` is the matching `PlayerSpec` transition applied
  to the old state.

Behaviour of the code worth knowing, which the model states as it is:

- A chain can run two scheduling loops at once. One might expect at most one
  outstanding continuation per chain. But re-enabling a chain while the player
  is playing calls the scheduler (hum), or starts a scheduler task (whirs),
  whether or not a sound or a pause is still outstanding. See
  `HumReenableStartsSecondLoop` and `WhirReenableStartsSecondLoop`.
- Pausing does not end a loop, it suspends it. The schedulers test
  `playing` and the chain flag, never the scheduling latches
  (Aetheryte/Player.swift:158, 179). A whir task still waiting out its pause
  carries on after the next `toggle`, next to the loop that `play` starts, so
  the whir chain has two loops. A hum left unconsumed on the paused node does
  the same, if the node keeps its queue across the engine stop
  (Aetheryte/Player.swift:231-233). See `PauseResumeKeepsStaleLoops`.
- Engine start errors are not surfaced. A failed engine start is only logged.
  `play` and `toggle` return nothing, and the player is left not playing.
- `toggle` flips `playing` before it calls `play` or `pause`, and `play` sets
  it to true again before starting the engine.
- The whir chain's `whirVolume` is overwritten:
  - Every scheduled whir sets the whir node's volume to its own random gain
    (Aetheryte/Player.swift:185-186).
  - So a `whirVolume` the user sets lasts only until the next whir is queued.
  - `ScheduleWhir` states this as it is.

`WhirRateMin` is 0.794 and `WhirRateMax` 1.0, as at Aetheryte/Player.swift:33.

## Model

| member | source | states |
|---|---|---|
| WhirDelays.DelayRange | Aetheryte/Player.swift:17-24 | each profile's delay range is non-empty and within 0..8001 ms; only the in-game profile can draw 0 and only the infrequent profile can draw 8001 |
| WhirDelays.DelayRangeTable | Aetheryte/Player.swift:17-24 | in-game draws from 0...2001 and infrequent from 2001...8001 |
| WhirDelays.DelayRangesMeetAt2001 | Aetheryte/Player.swift:17-24 | no in-game pause is longer than an infrequent one, and 2001 ms is the only pause both profiles can draw |
| PlayerSpec.Initial | Aetheryte/Player.swift:35-99 | a new player is stopped, both chains are enabled, the profile is in-game, and nothing is queued or pending |
| PlayerSpec.ScheduleHum | Aetheryte/Player.swift:157-165 | exactly one hum is queued when hum is enabled and the player is playing; otherwise the state is unchanged; nothing outside the hum node's queue changes |
| PlayerSpec.StartHumMonitoring | Aetheryte/Player.swift:167-175 | sets the hum latch and queues one hum exactly when hum is enabled and the player is playing |
| PlayerSpec.HumCompleted | Aetheryte/Player.swift:160-164 | the hum completion consumes one queued hum, queues nothing itself, and leaves one pending scheduler task |
| PlayerSpec.RunHumTask | Aetheryte/Player.swift:161-163 | a pending hum task is used up, and it queues one hum exactly when hum is enabled and the player is playing when it runs |
| PlayerSpec.ScheduleWhir | Aetheryte/Player.swift:177-188 | when whirs are enabled and the player is playing: one whir of a legal file, rate and gain is queued, and the time-pitch rate and node volume become the drawn values; otherwise the state is unchanged; the hum chain never changes |
| PlayerSpec.StartWhirMonitoring | Aetheryte/Player.swift:197-207 | sets the whir latch and leaves one immediate scheduler task; queues nothing itself |
| PlayerSpec.WhirCompleted | Aetheryte/Player.swift:188-191 | the whir completion consumes one whir and leaves a task that waits out a pause drawn from the profile selected at that moment |
| PlayerSpec.RunWhirTask | Aetheryte/Player.swift:189-192 | a pending whir task (any one of them) is removed; when whirs are enabled and the player is playing, one whir of the drawn file is queued and the rate and node volume become the drawn rate and gain, with the rest of the whir chain unchanged; otherwise only the task is removed |
| PlayerSpec.Play | Aetheryte/Player.swift:209-223 | on engine failure only `playing` is cleared; on success the engine runs, both nodes play, both latches are set, a hum is queued if hum is enabled, and one immediate whir task is pending |
| PlayerSpec.Pause | Aetheryte/Player.swift:225-234 | the player is fully stopped; flags, volumes, queues and pending tasks are unchanged |
| PlayerSpec.Toggle | Aetheryte/Player.swift:236-243 | from playing, toggle is pause; from stopped, it is play; afterwards the player is playing exactly when it was stopped and the engine started |
| PlayerSpec.SetPlayHum | Aetheryte/Player.swift:58-69 | disabling hum while playing pauses the hum node; enabling it while playing and latched resumes the node and schedules a hum; otherwise only the flag changes; the whir chain is untouched |
| PlayerSpec.SetPlayWhirs | Aetheryte/Player.swift:70-83 | disabling whirs while playing pauses the whir node; enabling them while playing and latched resumes the node and adds an immediate scheduler task; otherwise only the flag changes; the hum chain is untouched |
| PlayerSpec.SetHumVolume | Aetheryte/Player.swift:37-41 | the hum volume and the hum node's volume both become the new value; nothing else changes |
| PlayerSpec.SetWhirVolume | Aetheryte/Player.swift:43-47 | the whir volume and the whir node's volume both become the new value; nothing else changes |
| PlayerSpec.SetWhirDelay | Aetheryte/Player.swift:85 | only the selected profile changes |
| PlayerSpec.StoppedStep | Aetheryte/Player.swift:157-195 | a stopped player stays stopped and queues nothing under any event other than play or toggle |
| PlayerSpec.StoppedRun | Aetheryte/Player.swift:157-195 | over any trace without play or toggle, a stopped player stays stopped and neither node's queue grows |
| PlayerSpec.NothingQueuedAfterPause | Aetheryte/Player.swift:225-234 | after pause, no later callback, pending task (including a whir waiting out its pause), flag, volume or profile change queues anything until the player is started again |
| PlayerSpec.HumMutedStep | Aetheryte/Player.swift:58-69 | with hum disabled, any event except enabling it keeps hum disabled and queues no hum |
| PlayerSpec.HumMutedStaysSilent | Aetheryte/Player.swift:157-165 | with hum disabled, no trace that does not re-enable it queues a hum, even one that plays or toggles |
| PlayerSpec.WhirsMutedStep | Aetheryte/Player.swift:70-83 | with whirs disabled, any event except enabling them keeps whirs disabled and queues no whir |
| PlayerSpec.WhirsMutedStaySilent | Aetheryte/Player.swift:177-195 | with whirs disabled, no trace that does not re-enable them queues a whir, even one that plays or toggles |
| PlayerSpec.RemoveTask | Aetheryte/Player.swift:189-192 | running a pending task removes exactly that one task and keeps the others in order |
| PlayerSpec.RemoveTaskSubset | Aetheryte/Player.swift:189-192 | removing a task leaves no task that was not already pending |
| PlayerSpec.StepWellFormed | Aetheryte/Player.swift:177-193 | every event keeps the queues well formed: the hum node only plays the hum, every whir is a legal draw, the rate stays in range, and no pending pause exceeds 8001 ms |
| PlayerSpec.RunWellFormed | Aetheryte/Player.swift:177-193 | every state reachable from a well-formed state is well formed |
| PlayerSpec.StepCoherent | Aetheryte/Player.swift:209-243 | every event the interface can cause keeps the engine and both latches in step with `playing`, and keeps nodes paused while the player is stopped |
| PlayerSpec.ReachableCoherent | Aetheryte/Player.swift:209-243 | every state the interface can reach from a coherent state is coherent |
| PlayerSpec.InitialInvariants | Aetheryte/Player.swift:35-99 | the state right after construction is coherent and well formed, so the two invariants hold on every trace from it |
| PlayerSpec.DirectPlayWhilePlayingCanBreakCoherence | Aetheryte/Player.swift:209-223 | calling play directly while playing, with a failing engine start, leaves the engine running and both latches set while `playing` is false |
| PlayerSpec.FailedToggleChangesNothing | Aetheryte/Player.swift:236-243 | a toggle from stopped whose engine start fails leaves the state exactly as it was |
| PlayerSpec.ToggleOnOff | Aetheryte/Player.swift:236-243 | toggling on and then off from a coherent stopped state stops the player again; the only differences are the hum queued on start and one pending whir task |
| PlayerSpec.HumOffOn | Aetheryte/Player.swift:58-69 | disabling and re-enabling hum while playing leaves the hum node playing with exactly one more hum queued |
| PlayerSpec.HumReenableStartsSecondLoop | Aetheryte/Player.swift:58-69 | re-enabling hum while a hum is still outstanding leaves one more outstanding hum (at least two); consuming one and running its task queues another hum, so the outstanding count does not drop |
| PlayerSpec.PauseResumeKeepsStaleLoops | Aetheryte/Player.swift:157-243 | toggling off and on while a hum is outstanding and a whir task waits out its pause leaves the old task next to the new immediate one and one more outstanding hum; the old task, when it runs, queues a whir |
| PlayerSpec.WhirReenableStartsSecondLoop | Aetheryte/Player.swift:70-83 | re-enabling whirs while a pause is being waited out adds a second, immediate scheduler task next to it |
| PlayerSpec.ProfileChangeAffectsOnlyLaterDraws | Aetheryte/Player.swift:188-191 | after a profile change, the next completion draws exactly from the new profile's range, and pauses already pending are kept |
| PlayerSpec.VolumesLastWriteWins | Aetheryte/Player.swift:37-47 | the last volume written wins, and setting the hum volume and the whir volume commute |
| AudioPlayer.Player.constructor | Aetheryte/Player.swift:101-155 | the new player's state is `Initial()` |
| AudioPlayer.Player.SetHumVolume | Aetheryte/Player.swift:37-41 | the new state is `SetHumVolume` of the old |
| AudioPlayer.Player.SetWhirVolume | Aetheryte/Player.swift:43-47 | the new state is `SetWhirVolume` of the old |
| AudioPlayer.Player.SetPlayHum | Aetheryte/Player.swift:58-69 | the new state is `SetPlayHum` of the old |
| AudioPlayer.Player.SetPlayWhirs | Aetheryte/Player.swift:70-83 | the new state is `SetPlayWhirs` of the old |
| AudioPlayer.Player.SetWhirDelay | Aetheryte/Player.swift:85 | the new state is `SetWhirDelay` of the old |
| AudioPlayer.Player.ScheduleHum | Aetheryte/Player.swift:157-165 | the new state is `ScheduleHum` of the old |
| AudioPlayer.Player.StartHumMonitoring | Aetheryte/Player.swift:167-175 | the new state is `StartHumMonitoring` of the old |
| AudioPlayer.Player.HumCompleted | Aetheryte/Player.swift:160-164 | the new state is `HumCompleted` of the old |
| AudioPlayer.Player.RunHumTask | Aetheryte/Player.swift:161-163 | the new state is `RunHumTask` of the old |
| AudioPlayer.Player.ScheduleWhir | Aetheryte/Player.swift:177-188 | the new state is `ScheduleWhir` of the old, for the drawn file, rate and gain |
| AudioPlayer.Player.StartWhirMonitoring | Aetheryte/Player.swift:197-207 | the new state is `StartWhirMonitoring` of the old |
| AudioPlayer.Player.WhirCompleted | Aetheryte/Player.swift:188-191 | the new state is `WhirCompleted` of the old, for a pause drawn from the current profile |
| AudioPlayer.Player.RunWhirTask | Aetheryte/Player.swift:189-192 | the new state is `RunWhirTask` of the old |
| AudioPlayer.Player.Play | Aetheryte/Player.swift:209-223 | the new state is `Play` of the old, for the given engine outcome |
| AudioPlayer.Player.Pause | Aetheryte/Player.swift:225-234 | the new state is `Pause` of the old |
| AudioPlayer.Player.Toggle | Aetheryte/Player.swift:236-243 | the new state is `Toggle` of the old, for the given engine outcome |
| AudioPlayer.LateCallbacksAfterPause | Aetheryte/Player.swift:225-234 | after pause, from any state, the hum and whir callbacks still in flight, and the tasks they leave, find the player stopped and queue nothing |

## Left out

- The `mainVolume` observer (Aetheryte/Player.swift:49-56) is not part of this model. It clamps the volume and maps it to a square-root gain times 0.125 on the main mixer, which is floating-point arithmetic on the engine's mixer, and no other behaviour depends on it.
- Time-pitch pitch values are not modelled. They are computed with `log2` from the rate (Aetheryte/Player.swift:116, 183). This is floating point, and nothing else reads them. The whir rate itself is modelled.
- The fixed hum rate of 0.63 is not modelled, because nothing in the player's logic reads it.
- Random draws are modelled as parameters constrained to their ranges. Floating-point rounding of the rate and gain is not modelled. Real numbers stand in for `Float`.
- The audio taps installed in `startHumMonitoring` and `startWhirMonitoring`, and removed in `pause`, are left out because their closures do nothing.
- Loading the audio files is left out because it is I/O. So are building and connecting the engine graph and `prepare` in `init`, and the iOS audio session setup.
- The audio engine and player nodes are reduced to the state the player changes: running, playing or paused, volume, and the queue of scheduled sounds. Actual audio output is not modelled.
- Timing is left out:
  - `Task.sleep` is not timed. A whir task records only the pause it drew.
  - Pending tasks may run in any order, one at a time, so actors and the main-actor hops are reduced to interleavings of whole events.
  - The `async` suspension inside `play` and `toggle` is not a separate interleaving point.
- Logging of a failed engine start is left out because it is I/O.
- At most one outstanding continuation per chain is not claimed, because the code does not keep it. The two re-enable lemmas and `PauseResumeKeepsStaleLoops` exhibit this.
- The gap inside `scheduleWhir` between the guard check on the main actor and the enqueue is not modelled (Aetheryte/Player.swift:179-188). The check happens inside `MainActor.run`, and the rate, gain and `scheduleFile` calls follow off the main actor. A `pause`, or `playWhirs` set to false, that lands in between does not stop that whir. The model runs a whir task as one atomic event, so `NothingQueuedAfterPause`, `StoppedRun` and `WhirsMutedStaySilent` hold only for tasks that do their check after the pause or the mute.
- PlayerSpec.ReachableCoherent: covers only traces without a direct `play` call. A direct `play` while already playing, with a failing engine, breaks coherence, as `DirectPlayWhilePlayingCanBreakCoherence` shows.
- The SwiftUI views and the app entry point are not part of this model.
