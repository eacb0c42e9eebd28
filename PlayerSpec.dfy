/**
 * The playback state machine of the ambient player, as values.
 *
 * A `PlayerState` holds the player's own flags and the state of the audio
 * objects it drives: whether the engine runs, and for each of the two chains
 * (hum and whir) its flags, its player node (playing or paused, volume, and
 * the sounds it was asked to play) and its pending detached tasks. What a
 * node was asked to play is an append-only log, so "the scheduler enqueued
 * nothing" is "the log did not grow"; `consumed` counts the sounds whose
 * completion callback has fired. A completion callback consumes one sound
 * and leaves a pending task behind, and a pending task later runs the
 * guarded scheduler. Random draws (which whir file, its rate and gain, the
 * next delay) are parameters constrained to the ranges they are drawn from.
 */
module PlayerSpec {
  import opened WhirDelays

  /** The whir files, loaded once; a whir names one of them by index. */
  const WhirFiles: seq<string> := ["whir1", "whir2", "whir3", "whir4", "whir5"]
  const WhirFileCount: nat := |WhirFiles|
  /** Range of the random whir playback rate. */
  const WhirRateMin: real := 0.794
  const WhirRateMax: real := 1.0
  /** Range of the random per-whir gain. */
  const WhirGainMin: real := 0.6
  const WhirGainMax: real := 1.0

  /** A sound handed to a player node: the hum file, or one whir file with its drawn rate and gain. */
  datatype Sound = Hum | Whir(file: nat, rate: real, gain: real)

  /** A player node: playing or paused, its volume, what it was asked to play, how much of it is consumed. */
  datatype PlayerNode = PlayerNode(playing: bool, volume: real, scheduled: seq<Sound>, consumed: nat)

  /** A detached task that will call the whir scheduler, at once or after a drawn pause. */
  datatype WhirTask = Immediate | AfterDelay(ms: int)

  /**
   * The hum chain: `enabled` is the `playHum` flag, `schedulingStarted` its
   * latch, `volume` the `humVolume` property, `tasks` the detached tasks
   * that will call the hum scheduler.
   */
  datatype HumChain = HumChain(enabled: bool, schedulingStarted: bool, volume: real, node: PlayerNode, tasks: nat)

  /**
   * The whir chain: `enabled` is the `playWhirs` flag, `schedulingStarted`
   * its latch, `volume` the `whirVolume` property, `rate` the rate of the
   * whir time-pitch unit, `tasks` the detached tasks that will call the whir
   * scheduler.
   */
  datatype WhirChain = WhirChain(enabled: bool, schedulingStarted: bool, volume: real, node: PlayerNode,
                                 rate: real, tasks: seq<WhirTask>)

  datatype PlayerState = PlayerState(playing: bool, engineRunning: bool, whirDelay: WhirDelay,
                                     hum: HumChain, whir: WhirChain)

  /** The state right after construction: stopped, both chains enabled, full volume, nothing queued. */
  function Initial(): (s: PlayerState)
    ensures Stopped(s) && s.hum.enabled && s.whir.enabled && s.whirDelay == InGame
    ensures s.hum.node.scheduled == [] && s.whir.node.scheduled == [] && s.hum.tasks == 0 && s.whir.tasks == []
  {
    var idle := PlayerNode(false, 1.0, [], 0);
    PlayerState(false, false, InGame, HumChain(true, false, 1.0, idle, 0), WhirChain(true, false, 1.0, idle, 1.0, []))
  }

  /** A legal random draw for one whir: a file of the list, a rate and a gain in their ranges. */
  predicate IsWhirDraw(file: nat, rate: real, gain: real) {
    file < WhirFileCount && WhirRateMin <= rate <= WhirRateMax && WhirGainMin <= gain <= WhirGainMax
  }

  /** Fully stopped: not playing, both latches cleared, both nodes paused, engine stopped. */
  predicate Stopped(s: PlayerState) {
    !s.playing && !s.engineRunning && !s.hum.schedulingStarted && !s.whir.schedulingStarted
    && !s.hum.node.playing && !s.whir.node.playing
  }

  /** Only the hum chain may differ between `s` and `t`. */
  predicate OnlyHumChanged(s: PlayerState, t: PlayerState) {
    t.playing == s.playing && t.engineRunning == s.engineRunning && t.whirDelay == s.whirDelay && t.whir == s.whir
  }

  /** Only the whir chain may differ between `s` and `t`. */
  predicate OnlyWhirChanged(s: PlayerState, t: PlayerState) {
    t.playing == s.playing && t.engineRunning == s.engineRunning && t.whirDelay == s.whirDelay && t.hum == s.hum
  }

  /** The node with one more sound at the end of its queue, and nothing else changed. */
  function Enqueue(n: PlayerNode, x: Sound): (m: PlayerNode)
  {
    n.(scheduled := n.scheduled + [x])
  }

  // ---------------------------------------------------------------------
  // The hum chain

  /**
   * The guarded hum scheduler: exactly one more hum file is queued on the hum
   * node when hum is enabled and the player is playing; otherwise nothing at
   * all changes. Nothing outside the hum node's queue ever changes.
   */
  function ScheduleHum(s: PlayerState): (t: PlayerState)
    ensures OnlyHumChanged(s, t) && t.hum == s.hum.(node := t.hum.node)
    ensures s.hum.enabled && s.playing ==> t.hum.node == Enqueue(s.hum.node, Hum)
    ensures !(s.hum.enabled && s.playing) ==> t == s
  {
    if s.hum.enabled && s.playing then s.(hum := s.hum.(node := Enqueue(s.hum.node, Hum))) else s
  }

  /**
   * Starting hum monitoring sets the hum latch and runs the scheduler once,
   * on the same call: one hum is queued exactly when hum is enabled and the
   * player is playing.
   */
  function StartHumMonitoring(s: PlayerState): (t: PlayerState)
    ensures OnlyHumChanged(s, t) && t.hum.schedulingStarted
    ensures t.hum.node.scheduled == s.hum.node.scheduled + (if s.hum.enabled && s.playing then [Hum] else [])
    ensures t.hum == s.hum.(schedulingStarted := true, node := s.hum.node.(scheduled := t.hum.node.scheduled))
  {
    ScheduleHum(s.(hum := s.hum.(schedulingStarted := true)))
  }

  /**
   * The hum node consumed one queued hum: its callback leaves one detached
   * task that will run the scheduler, and queues nothing itself.
   */
  function HumCompleted(s: PlayerState): (t: PlayerState)
    requires s.hum.node.consumed < |s.hum.node.scheduled|
    ensures OnlyHumChanged(s, t)
    ensures t.hum.node.consumed == s.hum.node.consumed + 1 <= |t.hum.node.scheduled|
    ensures t.hum.node.scheduled == s.hum.node.scheduled && t.hum.tasks == s.hum.tasks + 1
    ensures t.hum == s.hum.(node := s.hum.node.(consumed := t.hum.node.consumed), tasks := t.hum.tasks)
  {
    s.(hum := s.hum.(node := s.hum.node.(consumed := s.hum.node.consumed + 1), tasks := s.hum.tasks + 1))
  }

  /**
   * A pending hum task runs: it is used up, and it queues one hum exactly
   * when hum is enabled and the player is playing at the moment it runs.
   */
  function RunHumTask(s: PlayerState): (t: PlayerState)
    requires s.hum.tasks > 0
    ensures OnlyHumChanged(s, t) && t.hum.tasks == s.hum.tasks - 1
    ensures t.hum.node.scheduled == s.hum.node.scheduled + (if s.hum.enabled && s.playing then [Hum] else [])
    ensures t.hum == s.hum.(tasks := t.hum.tasks, node := s.hum.node.(scheduled := t.hum.node.scheduled))
  {
    ScheduleHum(s.(hum := s.hum.(tasks := s.hum.tasks - 1)))
  }

  // ---------------------------------------------------------------------
  // The whir chain

  /**
   * The guarded whir scheduler. When whirs are enabled and the player is
   * playing, exactly one whir, of a file from the fixed five, is queued on
   * the whir node, and the time-pitch rate and the node volume become the
   * drawn rate and gain (so the whir volume the user set is overwritten by
   * the gain). Otherwise nothing changes. The hum chain never changes.
   */
  function ScheduleWhir(s: PlayerState, file: nat, rate: real, gain: real): (t: PlayerState)
    requires IsWhirDraw(file, rate, gain)
    ensures OnlyWhirChanged(s, t)
    ensures s.whir.enabled && s.playing ==>
      && t.whir.node.scheduled == s.whir.node.scheduled + [Whir(file, rate, gain)]
      && t.whir.node.scheduled[|s.whir.node.scheduled|].file < WhirFileCount
      && t.whir.rate == rate && t.whir.node.volume == gain
      && t.whir == s.whir.(rate := rate, node := s.whir.node.(volume := gain, scheduled := t.whir.node.scheduled))
    ensures !(s.whir.enabled && s.playing) ==> t == s
  {
    if s.whir.enabled && s.playing then
      var w := s.whir.(rate := rate, node := s.whir.node.(volume := gain));
      s.(whir := w.(node := Enqueue(w.node, Whir(file, rate, gain))))
    else
      s
  }

  /**
   * Starting whir monitoring sets the whir latch and leaves one detached task
   * that will run the scheduler; nothing is queued on this call.
   */
  function StartWhirMonitoring(s: PlayerState): (t: PlayerState)
    ensures OnlyWhirChanged(s, t) && t.whir.schedulingStarted
    ensures t.whir.tasks == s.whir.tasks + [Immediate] && t.whir.node == s.whir.node
    ensures t.whir == s.whir.(schedulingStarted := true, tasks := t.whir.tasks)
  {
    s.(whir := s.whir.(schedulingStarted := true, tasks := s.whir.tasks + [Immediate]))
  }

  /**
   * The whir node consumed one queued whir: its callback draws the next
   * pause from the range of the profile selected NOW (not when the whir was
   * queued) and leaves a task that waits that long before running the
   * scheduler; it queues nothing itself.
   */
  function WhirCompleted(s: PlayerState, delay: int): (t: PlayerState)
    requires s.whir.node.consumed < |s.whir.node.scheduled|
    requires DelayRange(s.whirDelay).Contains(delay)
    ensures OnlyWhirChanged(s, t) && 0 <= delay <= MaxWhirDelay
    ensures t.whir.node.consumed == s.whir.node.consumed + 1 <= |t.whir.node.scheduled|
    ensures t.whir.node.scheduled == s.whir.node.scheduled
    ensures t.whir.tasks == s.whir.tasks + [AfterDelay(delay)]
    ensures t.whir == s.whir.(node := s.whir.node.(consumed := t.whir.node.consumed), tasks := t.whir.tasks)
  {
    s.(whir := s.whir.(node := s.whir.node.(consumed := s.whir.node.consumed + 1),
                       tasks := s.whir.tasks + [AfterDelay(delay)]))
  }

  /** The pending tasks with the `i`-th one taken out, the others in order. */
  function RemoveTask(tasks: seq<WhirTask>, i: nat): (r: seq<WhirTask>)
    requires i < |tasks|
    ensures |r| == |tasks| - 1
    ensures forall k :: 0 <= k < |r| ==> r[k] == tasks[if k < i then k else k + 1]
  {
    tasks[..i] + tasks[i + 1..]
  }

  /**
   * The `i`-th pending whir task runs (pending tasks may run in any order):
   * it is used up, and one whir is queued exactly when whirs are enabled and
   * the player is playing at the moment it runs, whether the task was an
   * immediate one or one that waited out a pause.
   */
  function RunWhirTask(s: PlayerState, i: nat, file: nat, rate: real, gain: real): (t: PlayerState)
    requires i < |s.whir.tasks|
    requires IsWhirDraw(file, rate, gain)
    ensures OnlyWhirChanged(s, t) && t.whir.tasks == RemoveTask(s.whir.tasks, i)
    ensures s.whir.enabled && s.playing ==>
      && t.whir.node.scheduled == s.whir.node.scheduled + [Whir(file, rate, gain)]
      && t.whir == s.whir.(tasks := t.whir.tasks, rate := rate,
                           node := s.whir.node.(volume := gain, scheduled := t.whir.node.scheduled))
    ensures !(s.whir.enabled && s.playing) ==> t.whir == s.whir.(tasks := t.whir.tasks)
  {
    ScheduleWhir(s.(whir := s.whir.(tasks := RemoveTask(s.whir.tasks, i))), file, rate, gain)
  }

  // ---------------------------------------------------------------------
  // Global playback

  /**
   * Play. If the engine fails to start, the player ends not playing with
   * nothing else changed: the latches as they were, no node started, nothing
   * queued. If it starts, the player is playing, the engine runs, both nodes
   * play, both latches are set, one hum is queued when hum is enabled, and
   * one whir task is pending (the first whir is queued when it runs).
   */
  function Play(s: PlayerState, engineStarts: bool): (t: PlayerState)
    ensures !engineStarts ==> t == s.(playing := false)
    ensures engineStarts ==>
      && t.playing && t.engineRunning && t.whirDelay == s.whirDelay
      && t.hum.node.playing && t.whir.node.playing
      && t.hum.schedulingStarted && t.whir.schedulingStarted
      && t.hum.node.scheduled == s.hum.node.scheduled + (if s.hum.enabled then [Hum] else [])
      && t.whir.tasks == s.whir.tasks + [Immediate]
      && t.hum == s.hum.(schedulingStarted := true,
                         node := s.hum.node.(playing := true, scheduled := t.hum.node.scheduled))
      && t.whir == s.whir.(schedulingStarted := true, node := s.whir.node.(playing := true),
                           tasks := t.whir.tasks)
  {
    var p := s.(playing := true);
    if !engineStarts then
      p.(playing := false)
    else
      var r := p.(engineRunning := true,
                  hum := p.hum.(node := p.hum.node.(playing := true)),
                  whir := p.whir.(node := p.whir.node.(playing := true)));
      StartWhirMonitoring(StartHumMonitoring(r))
  }

  /**
   * Pause: the player is fully stopped (latches cleared, nodes paused, engine
   * stopped) and nothing else changes; in particular nothing is queued and
   * pending tasks stay pending, to find `playing` and the latches cleared.
   */
  function Pause(s: PlayerState): (t: PlayerState)
    ensures Stopped(t) && t.whirDelay == s.whirDelay
    ensures t.hum == s.hum.(schedulingStarted := false, node := s.hum.node.(playing := false))
    ensures t.whir == s.whir.(schedulingStarted := false, node := s.whir.node.(playing := false))
  {
    s.(playing := false,
       hum := s.hum.(schedulingStarted := false, node := s.hum.node.(playing := false)),
       whir := s.whir.(schedulingStarted := false, node := s.whir.node.(playing := false)),
       engineRunning := false)
  }

  /**
   * Toggle flips `playing` and then pauses when it was playing and plays when
   * it was not; the net effect is that `playing` flips, except that a failed
   * engine start leaves it false.
   */
  function Toggle(s: PlayerState, engineStarts: bool): (t: PlayerState)
    ensures s.playing ==> t == Pause(s)
    ensures !s.playing ==> t == Play(s, engineStarts)
    ensures t.playing == (!s.playing && engineStarts)
  {
    var flipped := s.(playing := !s.playing);
    if flipped.playing then Play(flipped, engineStarts) else Pause(flipped)
  }

  // ---------------------------------------------------------------------
  // Property observers

  /**
   * Setting `playHum`. While not playing only the flag changes. While
   * playing, clearing it pauses the hum node and nothing else; setting it
   * resumes the hum node and queues one hum only when the hum latch is set.
   * Nothing outside the hum chain changes.
   */
  function SetPlayHum(s: PlayerState, on: bool): (t: PlayerState)
    ensures OnlyHumChanged(s, t) && t.hum.enabled == on
    ensures !s.playing ==> t.hum == s.hum.(enabled := on)
    ensures s.playing && !on ==> t.hum == s.hum.(enabled := false, node := s.hum.node.(playing := false))
    ensures s.playing && on && s.hum.schedulingStarted ==>
      t.hum == s.hum.(enabled := true, node := Enqueue(s.hum.node.(playing := true), Hum))
    ensures s.playing && on && !s.hum.schedulingStarted ==> t.hum == s.hum.(enabled := true)
  {
    var p := s.(hum := s.hum.(enabled := on));
    if p.playing then
      if !p.hum.enabled then p.(hum := p.hum.(node := p.hum.node.(playing := false)))
      else if p.playing && p.hum.schedulingStarted then ScheduleHum(p.(hum := p.hum.(node := p.hum.node.(playing := true))))
      else p
    else
      p
  }

  /**
   * Setting `playWhirs`. While not playing only the flag changes. While
   * playing, clearing it pauses the whir node and nothing else; setting it
   * resumes the whir node and leaves one pending scheduler task only when the
   * whir latch is set. Nothing is queued on this call, and nothing outside
   * the whir chain changes.
   */
  function SetPlayWhirs(s: PlayerState, on: bool): (t: PlayerState)
    ensures OnlyWhirChanged(s, t) && t.whir.enabled == on
    ensures t.whir.node.scheduled == s.whir.node.scheduled
    ensures !s.playing ==> t.whir == s.whir.(enabled := on)
    ensures s.playing && !on ==> t.whir == s.whir.(enabled := false, node := s.whir.node.(playing := false))
    ensures s.playing && on && s.whir.schedulingStarted ==>
      t.whir == s.whir.(enabled := true, node := s.whir.node.(playing := true), tasks := s.whir.tasks + [Immediate])
    ensures s.playing && on && !s.whir.schedulingStarted ==> t.whir == s.whir.(enabled := true)
  {
    var p := s.(whir := s.whir.(enabled := on));
    if p.playing then
      if !p.whir.enabled then p.(whir := p.whir.(node := p.whir.node.(playing := false)))
      else if p.playing && p.whir.schedulingStarted then
        p.(whir := p.whir.(node := p.whir.node.(playing := true), tasks := p.whir.tasks + [Immediate]))
      else p
    else
      p
  }

  /** Setting `humVolume` writes the hum node's volume and nothing else. */
  function SetHumVolume(s: PlayerState, v: real): (t: PlayerState)
    ensures OnlyHumChanged(s, t) && t.hum.volume == v && t.hum.node.volume == v
    ensures t.hum == s.hum.(volume := v, node := s.hum.node.(volume := v))
  {
    s.(hum := s.hum.(volume := v, node := s.hum.node.(volume := v)))
  }

  /** Setting `whirVolume` writes the whir node's volume and nothing else. */
  function SetWhirVolume(s: PlayerState, v: real): (t: PlayerState)
    ensures OnlyWhirChanged(s, t) && t.whir.volume == v && t.whir.node.volume == v
    ensures t.whir == s.whir.(volume := v, node := s.whir.node.(volume := v))
  {
    s.(whir := s.whir.(volume := v, node := s.whir.node.(volume := v)))
  }

  /**
   * Selecting a delay profile changes only the profile: pauses already being
   * waited out keep the delay they drew.
   */
  function SetWhirDelay(s: PlayerState, d: WhirDelay): (t: PlayerState)
    ensures t.whirDelay == d && t.whir.tasks == s.whir.tasks
    ensures t == s.(whirDelay := d)
  {
    s.(whirDelay := d)
  }

  // ---------------------------------------------------------------------
  // Traces

  /** Everything that can happen to a player, one step at a time. */
  datatype Event =
    | PlayCall(engineStarts: bool)
    | PauseCall
    | ToggleCall(engineStarts: bool)
    | PlayHumSet(on: bool)
    | PlayWhirsSet(on: bool)
    | HumVolumeSet(volume: real)
    | WhirVolumeSet(volume: real)
    | WhirDelaySet(profile: WhirDelay)
    | HumSoundConsumed
    | HumTaskRuns
    | WhirSoundConsumed(delay: int)
    | WhirTaskRuns(index: nat, file: nat, rate: real, gain: real)

  /** Whether `e` can happen in `s`: a sound must be queued, a task pending, a draw legal. */
  predicate Enabled(s: PlayerState, e: Event) {
    match e
    case HumSoundConsumed => s.hum.node.consumed < |s.hum.node.scheduled|
    case HumTaskRuns => s.hum.tasks > 0
    case WhirSoundConsumed(delay) =>
      s.whir.node.consumed < |s.whir.node.scheduled| && DelayRange(s.whirDelay).Contains(delay)
    case WhirTaskRuns(i, file, rate, gain) => i < |s.whir.tasks| && IsWhirDraw(file, rate, gain)
    case _ => true
  }

  function Step(s: PlayerState, e: Event): (t: PlayerState)
    requires Enabled(s, e)
  {
    match e
    case PlayCall(ok) => Play(s, ok)
    case PauseCall => Pause(s)
    case ToggleCall(ok) => Toggle(s, ok)
    case PlayHumSet(on) => SetPlayHum(s, on)
    case PlayWhirsSet(on) => SetPlayWhirs(s, on)
    case HumVolumeSet(v) => SetHumVolume(s, v)
    case WhirVolumeSet(v) => SetWhirVolume(s, v)
    case WhirDelaySet(d) => SetWhirDelay(s, d)
    case HumSoundConsumed => HumCompleted(s)
    case HumTaskRuns => RunHumTask(s)
    case WhirSoundConsumed(delay) => WhirCompleted(s, delay)
    case WhirTaskRuns(i, file, rate, gain) => RunWhirTask(s, i, file, rate, gain)
  }

  /** Every event of `evs` is enabled in the state the earlier ones lead to. */
  predicate ValidTrace(s: PlayerState, evs: seq<Event>)
    decreases |evs|
  {
    evs == [] || (Enabled(s, evs[0]) && ValidTrace(Step(s, evs[0]), evs[1..]))
  }

  function Run(s: PlayerState, evs: seq<Event>): (t: PlayerState)
    requires ValidTrace(s, evs)
    decreases |evs|
  {
    if evs == [] then s else Run(Step(s, evs[0]), evs[1..])
  }

  /** The events that start playback. */
  predicate Starts(e: Event) {
    e.PlayCall? || e.ToggleCall?
  }

  // ---------------------------------------------------------------------
  // Cancellation

  /** A stopped player stays stopped, and queues nothing, under any event that does not start it. */
  lemma StoppedStep(s: PlayerState, e: Event)
    requires Stopped(s) && Enabled(s, e) && !Starts(e)
    ensures Stopped(Step(s, e))
    ensures Step(s, e).hum.node.scheduled == s.hum.node.scheduled
    ensures Step(s, e).whir.node.scheduled == s.whir.node.scheduled
  {
  }

  /**
   * A stopped player queues no hum and no whir under any sequence of events
   * that does not play again: every completion callback, every pending task
   * (a whir task that waited out its pause included), every flag, volume and
   * profile change finds it stopped and leaves it stopped.
   */
  lemma {:induction false} StoppedRun(s: PlayerState, evs: seq<Event>)
    requires Stopped(s) && ValidTrace(s, evs)
    requires forall k :: 0 <= k < |evs| ==> !Starts(evs[k])
    ensures Stopped(Run(s, evs))
    ensures Run(s, evs).hum.node.scheduled == s.hum.node.scheduled
    ensures Run(s, evs).whir.node.scheduled == s.whir.node.scheduled
    decreases |evs|
  {
    if evs != [] {
      StoppedStep(s, evs[0]);
      StoppedRun(Step(s, evs[0]), evs[1..]);
    }
  }

  /** After `pause`, from any state, nothing more is queued until the player is started again. */
  lemma NothingQueuedAfterPause(s: PlayerState, evs: seq<Event>)
    requires ValidTrace(Pause(s), evs)
    requires forall k :: 0 <= k < |evs| ==> !Starts(evs[k])
    ensures Stopped(Run(Pause(s), evs))
    ensures Run(Pause(s), evs).hum.node.scheduled == s.hum.node.scheduled
    ensures Run(Pause(s), evs).whir.node.scheduled == s.whir.node.scheduled
  {
    StoppedRun(Pause(s), evs);
  }

  /** One step with hum disabled, other than enabling it, queues no hum and keeps it disabled. */
  lemma HumMutedStep(s: PlayerState, e: Event)
    requires !s.hum.enabled && Enabled(s, e) && e != PlayHumSet(true)
    ensures !Step(s, e).hum.enabled && Step(s, e).hum.node.scheduled == s.hum.node.scheduled
  {
  }

  /**
   * With hum disabled, no hum is queued by any events that do not enable it
   * again, playing and toggling included.
   */
  lemma {:induction false} HumMutedStaysSilent(s: PlayerState, evs: seq<Event>)
    requires !s.hum.enabled && ValidTrace(s, evs)
    requires forall k :: 0 <= k < |evs| ==> evs[k] != PlayHumSet(true)
    ensures !Run(s, evs).hum.enabled
    ensures Run(s, evs).hum.node.scheduled == s.hum.node.scheduled
    decreases |evs|
  {
    if evs != [] {
      HumMutedStep(s, evs[0]);
      HumMutedStaysSilent(Step(s, evs[0]), evs[1..]);
    }
  }

  /** One step with whirs disabled, other than enabling them, queues no whir and keeps them disabled. */
  lemma WhirsMutedStep(s: PlayerState, e: Event)
    requires !s.whir.enabled && Enabled(s, e) && e != PlayWhirsSet(true)
    ensures !Step(s, e).whir.enabled && Step(s, e).whir.node.scheduled == s.whir.node.scheduled
  {
  }

  /**
   * With whirs disabled, no whir is queued by any events that do not enable
   * them again, playing and toggling included.
   */
  lemma {:induction false} WhirsMutedStaySilent(s: PlayerState, evs: seq<Event>)
    requires !s.whir.enabled && ValidTrace(s, evs)
    requires forall k :: 0 <= k < |evs| ==> evs[k] != PlayWhirsSet(true)
    ensures !Run(s, evs).whir.enabled
    ensures Run(s, evs).whir.node.scheduled == s.whir.node.scheduled
    decreases |evs|
  {
    if evs != [] {
      WhirsMutedStep(s, evs[0]);
      WhirsMutedStaySilent(Step(s, evs[0]), evs[1..]);
    }
  }

  // ---------------------------------------------------------------------
  // Invariants

  /**
   * Well-formed: a node never consumes more than it was given, the hum node
   * only ever plays the hum file, every whir queued is a legal draw, the whir
   * rate is in its range, and every pause being waited out lies within
   * 0..MaxWhirDelay, whichever profile is selected now.
   */
  predicate WellFormed(s: PlayerState) {
    && s.hum.node.consumed <= |s.hum.node.scheduled|
    && s.whir.node.consumed <= |s.whir.node.scheduled|
    && (forall x :: x in s.hum.node.scheduled ==> x == Hum)
    && (forall x :: x in s.whir.node.scheduled ==> x.Whir? && IsWhirDraw(x.file, x.rate, x.gain))
    && WhirRateMin <= s.whir.rate <= WhirRateMax
    && (forall task :: task in s.whir.tasks && task.AfterDelay? ==> 0 <= task.ms <= MaxWhirDelay)
  }

  lemma RemoveTaskSubset(tasks: seq<WhirTask>, i: nat)
    requires i < |tasks|
    ensures forall task :: task in RemoveTask(tasks, i) ==> task in tasks
  {
    forall task | task in RemoveTask(tasks, i) ensures task in tasks {
      var k :| 0 <= k < |RemoveTask(tasks, i)| && RemoveTask(tasks, i)[k] == task;
      assert tasks[if k < i then k else k + 1] == task;
    }
  }

  /** Every event keeps a well-formed state well-formed. */
  lemma StepWellFormed(s: PlayerState, e: Event)
    requires WellFormed(s) && Enabled(s, e)
    ensures WellFormed(Step(s, e))
  {
  }

  /** Every state reachable from a well-formed one is well-formed. */
  lemma {:induction false} RunWellFormed(s: PlayerState, evs: seq<Event>)
    requires WellFormed(s) && ValidTrace(s, evs)
    ensures WellFormed(Run(s, evs))
    decreases |evs|
  {
    if evs != [] {
      StepWellFormed(s, evs[0]);
      RunWellFormed(Step(s, evs[0]), evs[1..]);
    }
  }

  /**
   * Coherent: the engine runs, and both latches are set, exactly while the
   * player is playing, and a node plays only while the player is playing.
   */
  predicate Coherent(s: PlayerState) {
    && s.engineRunning == s.playing
    && s.hum.schedulingStarted == s.playing
    && s.whir.schedulingStarted == s.playing
    && (s.hum.node.playing ==> s.playing)
    && (s.whir.node.playing ==> s.playing)
  }

  /** The events the user interface can cause: everything except a direct `play` call. */
  predicate FromInterface(e: Event) {
    !e.PlayCall?
  }

  lemma StepCoherent(s: PlayerState, e: Event)
    requires Coherent(s) && Enabled(s, e) && FromInterface(e)
    ensures Coherent(Step(s, e))
  {
  }

  /**
   * In every state the interface can reach from a coherent one, the engine
   * and both latches follow `playing`; so, while playing, the latch checks
   * in the `playHum` and `playWhirs` observers never block a resume.
   */
  lemma {:induction false} ReachableCoherent(s: PlayerState, evs: seq<Event>)
    requires Coherent(s) && ValidTrace(s, evs)
    requires forall k :: 0 <= k < |evs| ==> FromInterface(evs[k])
    ensures Coherent(Run(s, evs))
    decreases |evs|
  {
    if evs != [] {
      StepCoherent(s, evs[0]);
      ReachableCoherent(Step(s, evs[0]), evs[1..]);
    }
  }

  /** The state right after construction is both coherent and well-formed. */
  lemma InitialInvariants()
    ensures Coherent(Initial()) && WellFormed(Initial())
  {
  }

  /**
   * Calling `play` directly while already playing, with a failing engine,
   * breaks coherence: `playing` ends false while the engine still runs and
   * both latches stay set.
   */
  lemma DirectPlayWhilePlayingCanBreakCoherence()
    ensures Coherent(Toggle(Initial(), true))
    ensures var t := Play(Toggle(Initial(), true), false);
      && !t.playing && t.engineRunning && t.hum.schedulingStarted && t.whir.schedulingStarted
      && !Coherent(t)
  {
  }

  // ---------------------------------------------------------------------
  // Round trips

  /** A toggle whose engine start fails changes nothing, so a later toggle behaves as if it never happened. */
  lemma FailedToggleChangesNothing(s: PlayerState, engineStarts: bool)
    requires !s.playing
    ensures Toggle(s, false) == s
    ensures Toggle(Toggle(s, false), engineStarts) == Toggle(s, engineStarts)
  {
  }

  /**
   * Toggling on and then off from a coherent stopped state stops the player
   * again; the only traces left are the hum queued on start (when hum is
   * enabled) and one pending whir task.
   */
  lemma ToggleOnOff(s: PlayerState)
    requires Coherent(s) && !s.playing
    ensures var t := Toggle(Toggle(s, true), true);
      && Stopped(t) && t.whirDelay == s.whirDelay
      && t.hum == s.hum.(node := s.hum.node.(scheduled := s.hum.node.scheduled + (if s.hum.enabled then [Hum] else [])))
      && t.whir == s.whir.(tasks := s.whir.tasks + [Immediate])
  {
  }

  /** Disabling and re-enabling hum while playing leaves the hum node playing and one more hum queued. */
  lemma HumOffOn(s: PlayerState)
    requires s.playing && s.hum.schedulingStarted
    ensures var t := SetPlayHum(SetPlayHum(s, false), true);
      t == s.(hum := s.hum.(enabled := true, node := Enqueue(s.hum.node.(playing := true), Hum)))
  {
  }

  /**
   * Re-enabling hum while playing queues a hum even when one is still
   * outstanding: its completion and the new hum's each keep a rescheduling
   * loop going, so the hum chain can have two loops at once.
   */
  lemma HumReenableStartsSecondLoop(s: PlayerState)
    requires s.playing && s.hum.schedulingStarted && s.hum.node.consumed < |s.hum.node.scheduled|
    ensures var t := SetPlayHum(SetPlayHum(s, false), true);
      |t.hum.node.scheduled| - t.hum.node.consumed == |s.hum.node.scheduled| - s.hum.node.consumed + 1 >= 2
    ensures var t := SetPlayHum(SetPlayHum(s, false), true);
      var u := RunHumTask(HumCompleted(t));
      && u.hum.node.scheduled == t.hum.node.scheduled + [Hum]
      && |u.hum.node.scheduled| - u.hum.node.consumed == |t.hum.node.scheduled| - t.hum.node.consumed
  {
  }

  /**
   * Pausing does not end a loop that is still in flight, it only suspends it:
   * toggling off and on again while a whir task waits out its pause and a hum
   * is outstanding leaves the old task and the old hum next to the new ones,
   * and the old task, once it runs, queues a whir. Both chains then have two
   * loops.
   */
  lemma PauseResumeKeepsStaleLoops(s: PlayerState, ms: int, file: nat, rate: real, gain: real)
    requires s.playing && s.hum.enabled && s.whir.enabled
    requires s.hum.node.consumed < |s.hum.node.scheduled| && s.whir.tasks == [AfterDelay(ms)]
    requires IsWhirDraw(file, rate, gain)
    ensures var t := Toggle(Toggle(s, true), true);
      && t.playing && t.whir.tasks == [AfterDelay(ms), Immediate]
      && |t.hum.node.scheduled| - t.hum.node.consumed == |s.hum.node.scheduled| - s.hum.node.consumed + 1 >= 2
    ensures var t := Toggle(Toggle(s, true), true);
      var u := RunWhirTask(t, 0, file, rate, gain);
      && u.whir.node.scheduled == t.whir.node.scheduled + [Whir(file, rate, gain)]
      && u.whir.tasks == [Immediate]
  {
  }

  /**
   * Re-enabling whirs while playing leaves a new immediate scheduler task
   * even when a task is still waiting out its pause: the whir chain can have
   * two loops at once.
   */
  lemma WhirReenableStartsSecondLoop(s: PlayerState, ms: int)
    requires s.playing && s.whir.schedulingStarted && AfterDelay(ms) in s.whir.tasks
    ensures var t := SetPlayWhirs(SetPlayWhirs(s, false), true);
      AfterDelay(ms) in t.whir.tasks && t.whir.tasks[|t.whir.tasks| - 1] == Immediate
      && |t.whir.tasks| == |s.whir.tasks| + 1
  {
  }

  /**
   * Changing the profile affects only later draws: the next completion must
   * draw from the new profile's range, and pauses already being waited out
   * keep the delay they drew under the old one.
   */
  lemma ProfileChangeAffectsOnlyLaterDraws(s: PlayerState, d: WhirDelay, delay: int)
    requires s.whir.node.consumed < |s.whir.node.scheduled|
    ensures Enabled(SetWhirDelay(s, d), WhirSoundConsumed(delay)) <==> DelayRange(d).Contains(delay)
    ensures SetWhirDelay(s, d).whir.tasks == s.whir.tasks
  {
  }

  /** The last volume written wins, and the two chains' volumes do not interfere. */
  lemma VolumesLastWriteWins(s: PlayerState, a: real, b: real)
    ensures SetHumVolume(SetHumVolume(s, a), b) == SetHumVolume(s, b)
    ensures SetWhirVolume(SetWhirVolume(s, a), b) == SetWhirVolume(s, b)
    ensures SetWhirVolume(SetHumVolume(s, a), b) == SetHumVolume(SetWhirVolume(s, b), a)
  {
  }
}
