/**
 * The player object itself: the properties the source stores, and the audio
 * engine, the two player nodes and the whir time-pitch unit reduced to the
 * state the player changes. Every method changes the fields step by step as
 * the source does, and its postcondition says that the new state is the
 * corresponding transition of `PlayerSpec` applied to the old one; the
 * properties of those transitions are proved there.
 */
module AudioPlayer {
  import opened WhirDelays
  import opened PlayerSpec

  class Player {
    var playing: bool
    var playHum: bool
    var playWhirs: bool
    var humSchedulingStarted: bool
    var whirSchedulingStarted: bool
    var whirDelay: WhirDelay
    var humVolume: real
    var whirVolume: real

    // the audio engine, the two player nodes and the whir time-pitch rate, as state
    var engineRunning: bool
    var humNode: PlayerNode
    var whirNode: PlayerNode
    var whirRate: real

    // detached tasks that will call a scheduler
    var humTasks: nat
    var whirTasks: seq<WhirTask>

    /** The player's state as a value. */
    function State(): (s: PlayerState)
      reads this
    {
      PlayerState(playing, engineRunning, whirDelay,
                  HumChain(playHum, humSchedulingStarted, humVolume, humNode, humTasks),
                  WhirChain(playWhirs, whirSchedulingStarted, whirVolume, whirNode, whirRate, whirTasks))
    }

    /** A new player: stopped, both chains enabled, full chain volumes, in-game delays, nothing queued. */
    constructor ()
      ensures State() == Initial()
    {
      playing, playHum, playWhirs := false, true, true;
      humSchedulingStarted, whirSchedulingStarted := false, false;
      whirDelay := InGame;
      humVolume, whirVolume := 1.0, 1.0;
      engineRunning := false;
      humNode := PlayerNode(false, 1.0, [], 0);
      whirNode := PlayerNode(false, 1.0, [], 0);
      whirRate := 1.0;
      humTasks, whirTasks := 0, [];
    }

    method SetHumVolume(v: real)
      modifies this
      ensures State() == PlayerSpec.SetHumVolume(old(State()), v)
    {
      humVolume := v;
      humNode := humNode.(volume := humVolume);
    }

    method SetWhirVolume(v: real)
      modifies this
      ensures State() == PlayerSpec.SetWhirVolume(old(State()), v)
    {
      whirVolume := v;
      whirNode := whirNode.(volume := whirVolume);
    }

    method SetPlayHum(on: bool)
      modifies this
      ensures State() == PlayerSpec.SetPlayHum(old(State()), on)
    {
      playHum := on;
      if playing {
        if !playHum {
          humNode := humNode.(playing := false);
        } else if playing && humSchedulingStarted {
          humNode := humNode.(playing := true);
          ScheduleHum();
        }
      }
    }

    method SetPlayWhirs(on: bool)
      modifies this
      ensures State() == PlayerSpec.SetPlayWhirs(old(State()), on)
    {
      playWhirs := on;
      if playing {
        if !playWhirs {
          whirNode := whirNode.(playing := false);
        } else if playing && whirSchedulingStarted {
          whirNode := whirNode.(playing := true);
          whirTasks := whirTasks + [Immediate];
        }
      }
    }

    method SetWhirDelay(d: WhirDelay)
      modifies this
      ensures State() == PlayerSpec.SetWhirDelay(old(State()), d)
    {
      whirDelay := d;
    }

    /** Queues the hum file on the hum node, only if hum is enabled and the player is playing. */
    method ScheduleHum()
      modifies this
      ensures State() == PlayerSpec.ScheduleHum(old(State()))
    {
      if !(playHum && playing) {
        return;
      }
      humNode := humNode.(scheduled := humNode.scheduled + [Hum]);
    }

    method StartHumMonitoring()
      modifies this
      ensures State() == PlayerSpec.StartHumMonitoring(old(State()))
    {
      humSchedulingStarted := true;
      ScheduleHum();
    }

    /** The hum node consumed one queued hum; its callback leaves a detached task. */
    method HumCompleted()
      requires humNode.consumed < |humNode.scheduled|
      modifies this
      ensures State() == PlayerSpec.HumCompleted(old(State()))
    {
      humNode := humNode.(consumed := humNode.consumed + 1);
      humTasks := humTasks + 1;
    }

    /** A pending hum task runs the hum scheduler. */
    method RunHumTask()
      requires humTasks > 0
      modifies this
      ensures State() == PlayerSpec.RunHumTask(old(State()))
    {
      humTasks := humTasks - 1;
      ScheduleHum();
    }

    /**
     * Sets the drawn rate and gain and queues the drawn whir file on the whir
     * node, only if whirs are enabled and the player is playing.
     */
    method ScheduleWhir(file: nat, rate: real, gain: real)
      requires IsWhirDraw(file, rate, gain)
      modifies this
      ensures State() == PlayerSpec.ScheduleWhir(old(State()), file, rate, gain)
    {
      if !(playWhirs && playing) {
        return;
      }
      whirRate := rate;
      whirNode := whirNode.(volume := gain);
      whirNode := whirNode.(scheduled := whirNode.scheduled + [Whir(file, rate, gain)]);
    }

    method StartWhirMonitoring()
      modifies this
      ensures State() == PlayerSpec.StartWhirMonitoring(old(State()))
    {
      whirSchedulingStarted := true;
      whirTasks := whirTasks + [Immediate];
    }

    /**
     * The whir node consumed one queued whir; its callback draws the next
     * pause from the profile selected now and leaves a task that waits it out.
     */
    method WhirCompleted(delay: int)
      requires whirNode.consumed < |whirNode.scheduled|
      requires DelayRange(whirDelay).Contains(delay)
      modifies this
      ensures State() == PlayerSpec.WhirCompleted(old(State()), delay)
    {
      whirNode := whirNode.(consumed := whirNode.consumed + 1);
      whirTasks := whirTasks + [AfterDelay(delay)];
    }

    /** The `i`-th pending whir task runs the whir scheduler. */
    method RunWhirTask(i: nat, file: nat, rate: real, gain: real)
      requires i < |whirTasks|
      requires IsWhirDraw(file, rate, gain)
      modifies this
      ensures State() == PlayerSpec.RunWhirTask(old(State()), i, file, rate, gain)
    {
      whirTasks := whirTasks[..i] + whirTasks[i + 1..];
      ScheduleWhir(file, rate, gain);
    }

    /** Starts the engine and both nodes, then both schedulers; a failed start leaves `playing` false. */
    method Play(engineStarts: bool)
      modifies this
      ensures State() == PlayerSpec.Play(old(State()), engineStarts)
    {
      playing := true;
      if engineStarts {
        engineRunning := true;
        humNode := humNode.(playing := true);
        whirNode := whirNode.(playing := true);
      } else {
        playing := false;
        return;
      }
      StartHumMonitoring();
      StartWhirMonitoring();
    }

    /** Clears `playing` and both latches, pauses both nodes and stops the engine. */
    method Pause()
      modifies this
      ensures State() == PlayerSpec.Pause(old(State()))
    {
      playing := false;
      humSchedulingStarted := false;
      whirSchedulingStarted := false;
      humNode := humNode.(playing := false);
      whirNode := whirNode.(playing := false);
      engineRunning := false;
    }

    method Toggle(engineStarts: bool)
      modifies this
      ensures State() == PlayerSpec.Toggle(old(State()), engineStarts)
    {
      playing := !playing;
      if playing {
        Play(engineStarts);
      } else {
        Pause();
      }
    }
  }

  /**
   * A pause followed by the callbacks still in flight: the hum completion and
   * its task, the whir completion and the task that waited out the drawn
   * pause all find the player stopped and queue nothing.
   */
  method LateCallbacksAfterPause(p: Player, delay: int)
    requires p.humNode.consumed < |p.humNode.scheduled|
    requires p.whirNode.consumed < |p.whirNode.scheduled|
    requires DelayRange(p.whirDelay).Contains(delay)
    modifies p
    ensures Stopped(p.State())
    ensures p.humNode.scheduled == old(p.humNode.scheduled) && p.whirNode.scheduled == old(p.whirNode.scheduled)
  {
    p.Pause();
    p.HumCompleted();
    p.RunHumTask();
    p.WhirCompleted(delay);
    p.RunWhirTask(|p.whirTasks| - 1, 0, WhirRateMax, WhirGainMax);
  }
}
