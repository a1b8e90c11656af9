/**
 * The play screen's view controller: its audio fields, which its methods
 * update in place, and the enabled state of its buttons.
 */
module PlaySoundsController {
  import opened Wrappers
  import opened AudioGraph
  import opened Buttons
  import Playback
  import Completion

  class PlaySoundsViewController {
    /** Whether the app runs in the simulator, where every audio operation does nothing. */
    const simulator: bool
    var audioFile: Option<AudioFile>
    var audioEngine: Option<Engine>
    var audioPlayerNode: Option<Playback.Player>
    var stopTimer: Option<Playback.Timer>
    var alerts: seq<Playback.Alert>
    var controls: Controls

    ghost function State(): Playback.AudioState
      reads this
    {
      Playback.AudioState(audioFile, audioEngine, audioPlayerNode, stopTimer, alerts)
    }

    ghost predicate Valid()
      reads this
    {
      Playback.Inv(simulator, State())
    }

    /** The screen before loading: no file, no engine, no player, no timer, buttons as laid out. */
    constructor (simulator: bool, initialControls: Controls)
      ensures this.simulator == simulator
      ensures State() == Playback.Unloaded && controls == initialControls
      ensures Valid()
    {
      this.simulator := simulator;
      audioFile := None;
      audioEngine := None;
      audioPlayerNode := None;
      stopTimer := None;
      alerts := [];
      controls := initialControls;
    }

    /** Loads the recording, or raises an "Audio File Error" alert with the loader's message. */
    method InitialiseAudioFile(loaded: Result<AudioFile, string>)
      requires Valid()
      modifies this
      ensures Valid()
      ensures State() == Playback.InitialiseAudioFile(simulator, old(State()), loaded)
      ensures controls == old(controls)
    {
      if simulator {
        return;
      }
      match loaded
      case Success(f) =>
        audioFile := Some(f);
      case Failure(message) =>
        alerts := alerts + [Playback.Alert(Playback.AudioFileError, message)];
    }

    /** Appearing on screen always shows the not-playing buttons. */
    method ViewWillAppear()
      modifies this`controls
      ensures controls == ControlsFor(false)
    {
      ConfigureUI(false);
    }

    method ConfigureUI(playing: bool)
      modifies this`controls
      ensures controls == ControlsFor(playing)
    {
      controls := controls.(snail := !playing, chipmunk := !playing, rabbit := !playing,
                            vader := !playing, echo := !playing, reverb := !playing);
      controls := controls.(stop := playing);
    }

    /** Builds a graph only when the player slot is empty, then tells the player to play. */
    method PlaySound(req: EffectRequest, startError: Option<string>)
      requires Valid()
      requires simulator || audioPlayerNode.Some? || audioFile.Some?
      modifies this
      ensures Valid()
      ensures State() == Playback.PlaySound(simulator, old(State()), req, startError)
      ensures controls == old(controls)
    {
      if simulator {
        return;
      }
      Playback.PlaySoundKeepsInv(simulator, State(), req, startError);
      if audioPlayerNode == None {
        InitialiseAudio(req, startError);
      }
      audioPlayerNode := Some(audioPlayerNode.value.(playing := true));
    }

    /** Empties the player slot, invalidates the stop timer and stops and resets the engine, each if present. */
    method StopAudio()
      requires Valid()
      modifies this
      ensures Valid()
      ensures State() == Playback.StopAudio(simulator, old(State()))
      ensures controls == old(controls)
    {
      if simulator {
        return;
      }
      ghost var before := State();
      if audioPlayerNode.Some? {
        // the player node is stopped and dropped
        audioPlayerNode := None;
      }
      if stopTimer.Some? {
        stopTimer := Some(stopTimer.value.(valid := false));
      }
      if audioEngine.Some? {
        audioEngine := Some(audioEngine.value.(running := false));
      }
      assert State() == Playback.StopAudio(simulator, before);
      Playback.StopAudioKeepsInv(simulator, before);
    }

    /**
     * Builds and wires a new engine for the request, fills the player slot with
     * a player whose scheduled file captured the rate, and starts the engine;
     * a failed start raises an "Audio Engine Error" alert and returns.
     */
    method InitialiseAudio(req: EffectRequest, startError: Option<string>)
      requires simulator || audioFile.Some?
      modifies this
      ensures State() == Playback.InitialiseAudio(simulator, old(State()), req, startError)
      ensures controls == old(controls)
    {
      if simulator {
        return;
      }
      var engine, nodes := BuildGraph(audioFile.value.processingFormat, req);
      audioEngine := Some(engine);
      // the player is stopped, then its file is scheduled with a completion handler that captures the rate
      audioPlayerNode := Some(Playback.Player(false, true, req.rate));
      match startError
      case Some(message) =>
        alerts := alerts + [Playback.Alert(Playback.AudioEngineError, message)];
        return;
      case None =>
        audioEngine := Some(engine.(running := true));
    }

    /** The scheduled file's completion handler: arms a one-shot stop timer for the completion delay. */
    method FileCompleted(playerSampleTime: Option<int>)
      requires Valid()
      requires audioPlayerNode.Some? && audioPlayerNode.value.completionPending
      modifies this
      ensures Valid()
      ensures State() == Playback.FileCompleted(old(State()), playerSampleTime)
      ensures controls == old(controls)
    {
      Playback.FileCompletedKeepsInv(simulator, State(), playerSampleTime);
      var delay := Completion.CompletionDelay(audioFile.value, playerSampleTime, audioPlayerNode.value.capturedRate);
      audioPlayerNode := Some(audioPlayerNode.value.(completionPending := false));
      stopTimer := Some(Playback.Timer(delay, false, true));
    }

    /** The stop timer's run loop fires it: a valid timer calls stopAudio and is spent. */
    method FireStopTimer()
      requires Valid()
      modifies this
      ensures Valid()
      ensures State() == Playback.TimerFired(simulator, old(State()))
      ensures controls == old(controls)
    {
      Playback.TimerFiredKeepsInv(simulator, State());
      if stopTimer.Some? && stopTimer.value.valid {
        var timer := stopTimer.value;
        StopAudio();
        stopTimer := Some(timer.(valid := false));
      }
    }

    /**
     * An effect button: a tag that names no button type changes nothing;
     * otherwise the buttons switch to playing and the button's effect is played.
     */
    method PlaySoundForButton(tag: int, startError: Option<string>)
      requires Valid()
      requires ButtonFromTag(tag).Some? ==> simulator || audioPlayerNode.Some? || audioFile.Some?
      modifies this
      ensures Valid()
      ensures ButtonFromTag(tag) == None ==> unchanged(this)
      ensures forall b :: ButtonFromTag(tag) == Some(b) ==>
        controls == ControlsFor(true) &&
        State() == Playback.PlaySound(simulator, old(State()), RequestFor(b), startError)
    {
      var buttonType := ButtonFromTag(tag);
      if buttonType == None {
        return;
      }

      ConfigureUI(true);

      PlaySound(RequestFor(buttonType.value), startError);
    }

    /** The stop button: the buttons switch to not playing, then stopAudio runs. */
    method StopButtonPressed()
      requires Valid()
      modifies this
      ensures Valid()
      ensures controls == ControlsFor(false)
      ensures State() == Playback.StopAudio(simulator, old(State()))
    {
      ConfigureUI(false);
      StopAudio();
    }
  }
}
