/**
 * The play/stop state of the play screen's audio: the loaded file, the
 * engine, the player slot, the stop timer and the alerts raised. One function
 * per operation gives the state it leaves; the controller class's methods are
 * proved to follow them.
 */
module Playback {
  import opened Wrappers
  import opened AudioGraph
  import opened Completion

  const AudioFileError: string := "Audio File Error"
  const AudioEngineError: string := "Audio Engine Error"

  datatype Alert = Alert(title: string, message: string)

  /**
   * The player node in the slot: whether it was told to play, whether the
   * completion handler of its scheduled file has yet to run, and the rate that
   * handler captured when the graph was built.
   */
  datatype Player = Player(playing: bool, completionPending: bool, capturedRate: Option<PosReal>)

  /** A run-loop timer whose action is stopAudio. */
  datatype Timer = Timer(interval: real, repeats: bool, valid: bool)

  datatype AudioState = AudioState(
    file: Option<AudioFile>,
    engine: Option<Engine>,
    player: Option<Player>,
    stopTimer: Option<Timer>,
    alerts: seq<Alert>)

  const Unloaded := AudioState(None, None, None, None, [])

  /**
   * What every operation keeps: the simulator never holds audio objects; a
   * player exists only beside an engine and a loaded file; an engine is wired
   * as some request's chain; an engine left without a player has been
   * stopped, so a new graph never replaces a running one; timers never
   * repeat; and a timer still armed belongs to the live player, whose
   * completion has already run.
   */
  ghost predicate Inv(simulator: bool, s: AudioState) {
    && (simulator ==> s.file == None && s.engine == None && s.player == None && s.stopTimer == None)
    && (s.player.Some? ==> s.engine.Some? && s.file.Some?)
    && (s.engine.Some? ==> IsChainGraph(s.engine.value))
    && (s.player == None && s.engine.Some? ==> !s.engine.value.running)
    && (s.stopTimer.Some? ==> !s.stopTimer.value.repeats)
    && (s.stopTimer.Some? && s.stopTimer.value.valid ==> s.player.Some? && !s.player.value.completionPending)
  }

  /** Nothing plays and nothing is pending: no player, no armed timer, no running engine. */
  predicate Quiescent(s: AudioState) {
    && s.player == None
    && (s.stopTimer.Some? ==> !s.stopTimer.value.valid)
    && (s.engine.Some? ==> !s.engine.value.running)
  }

  function InitialiseAudioFile(simulator: bool, s: AudioState, loaded: Result<AudioFile, string>): AudioState {
    if simulator then s
    else match loaded
      case Success(f) => s.(file := Some(f))
      case Failure(message) => s.(alerts := s.alerts + [Alert(AudioFileError, message)])
  }

  /**
   * A new engine with the chain for the request, a new player whose scheduled
   * file captured the request's rate, and the engine started unless starting
   * fails with `startError`, which raises an alert but leaves the slot filled.
   */
  function InitialiseAudio(simulator: bool, s: AudioState, req: EffectRequest, startError: Option<string>): AudioState
    requires simulator || s.file.Some?
  {
    if simulator then s
    else
      var graph := GraphFor(s.file.value.processingFormat, req);
      s.(engine := Some(graph.(running := startError == None)),
         player := Some(Player(false, true, req.rate)),
         alerts := match startError
                   case Some(message) => s.alerts + [Alert(AudioEngineError, message)]
                   case None => s.alerts)
  }

  /** Builds a graph only when the slot is empty, then tells the player in the slot to play. */
  function PlaySound(simulator: bool, s: AudioState, req: EffectRequest, startError: Option<string>): AudioState
    requires simulator || s.player.Some? || s.file.Some?
  {
    if simulator then s
    else
      var built := if s.player == None then InitialiseAudio(simulator, s, req, startError) else s;
      built.(player := Some(built.player.value.(playing := true)))
  }

  /** Empties the slot, invalidates the timer if there is one, stops and resets the engine if there is one. */
  function StopAudio(simulator: bool, s: AudioState): AudioState {
    if simulator then s
    else
      s.(player := None,
         stopTimer := match s.stopTimer case Some(t) => Some(t.(valid := false)) case None => None,
         engine := match s.engine case Some(e) => Some(e.(running := false)) case None => None)
  }

  /** The scheduled file's completion handler: arms a one-shot timer for the completion delay. */
  function FileCompleted(s: AudioState, playerSampleTime: Option<int>): AudioState
    requires s.player.Some? && s.player.value.completionPending && s.file.Some?
  {
    var delay := CompletionDelay(s.file.value, playerSampleTime, s.player.value.capturedRate);
    s.(player := Some(s.player.value.(completionPending := false)),
       stopTimer := Some(Timer(delay, false, true)))
  }

  /** A valid timer fires: stopAudio runs and the one-shot timer is spent; an invalid one does nothing. */
  function TimerFired(simulator: bool, s: AudioState): AudioState {
    match s.stopTimer
    case Some(t) =>
      if t.valid then StopAudio(simulator, s).(stopTimer := Some(t.(valid := false))) else s
    case None => s
  }

  /** In the simulator the four audio operations return without touching anything. */
  lemma SimulatorChangesNothing(s: AudioState, loaded: Result<AudioFile, string>, req: EffectRequest, startError: Option<string>)
    ensures InitialiseAudioFile(true, s, loaded) == s
    ensures InitialiseAudio(true, s, req, startError) == s
    ensures PlaySound(true, s, req, startError) == s
    ensures StopAudio(true, s) == s
  {
  }

  /** With the slot empty, playSound builds the request's chain, starts it unless starting fails, and plays. */
  lemma FirstPlayBuildsChain(s: AudioState, req: EffectRequest, startError: Option<string>)
    requires s.player == None && s.file.Some?
    ensures PlaySound(false, s, req, startError).engine.Some?
    ensures PlaySound(false, s, req, startError).engine.value.attached + [OutputNode] == ChainFor(req)
    ensures PlaySound(false, s, req, startError).engine.value.edges
            == ChainEdges(ChainFor(req), s.file.value.processingFormat)
    ensures PlaySound(false, s, req, startError).engine.value.running <==> startError == None
    ensures PlaySound(false, s, req, startError).player == Some(Player(true, true, req.rate))
    ensures PlaySound(false, s, req, startError).stopTimer == s.stopTimer
    ensures PlaySound(false, s, req, startError).file == s.file
    ensures startError == None ==> PlaySound(false, s, req, startError).alerts == s.alerts
  {
  }

  /** A failed engine start raises one "Audio Engine Error" alert and still leaves the player in the slot. */
  lemma EngineFailureKeepsSlot(s: AudioState, req: EffectRequest, message: string)
    requires s.player == None && s.file.Some?
    ensures PlaySound(false, s, req, Some(message)).alerts == s.alerts + [Alert(AudioEngineError, message)]
    ensures PlaySound(false, s, req, Some(message)).player.Some?
    ensures !PlaySound(false, s, req, Some(message)).engine.value.running
  {
  }

  /** With a player in the slot, playSound ignores its arguments: the same graph plays on, nothing is rebuilt. */
  lemma SecondPlayReusesGraph(s: AudioState, req1: EffectRequest, req2: EffectRequest,
                              startError1: Option<string>, startError2: Option<string>)
    requires s.player.Some?
    ensures PlaySound(false, s, req1, startError1) == PlaySound(false, s, req2, startError2)
    ensures PlaySound(false, s, req1, startError1) == s.(player := Some(s.player.value.(playing := true)))
  {
  }

  /** After stopAudio nothing plays or is pending, and the file and alerts are as before. */
  lemma StopAudioQuiesces(s: AudioState)
    ensures Quiescent(StopAudio(false, s))
    ensures StopAudio(false, s).file == s.file && StopAudio(false, s).alerts == s.alerts
    ensures s.engine.Some? <==> StopAudio(false, s).engine.Some?
  {
  }

  /** stopAudio changes nothing when nothing plays, so a second call in a row changes nothing further. */
  lemma StopAudioIsIdempotent(simulator: bool, s: AudioState)
    ensures Quiescent(s) ==> StopAudio(simulator, s) == s
    ensures StopAudio(simulator, StopAudio(simulator, s)) == StopAudio(simulator, s)
    ensures StopAudio(simulator, Unloaded) == Unloaded
  {
  }

  /** A timer invalidated by stopAudio never fires stopAudio again. */
  lemma CancelledTimerNeverFires(simulator: bool, s: AudioState)
    requires Inv(simulator, s)
    ensures TimerFired(simulator, StopAudio(simulator, s)) == StopAudio(simulator, s)
  {
  }

  /**
   * The completion handler arms one non-repeating timer for the completion
   * delay, and when that timer fires playback has ended: nothing plays and
   * nothing is pending.
   */
  lemma CompletionEndsPlayback(s: AudioState, playerSampleTime: Option<int>)
    requires s.player.Some? && s.player.value.completionPending && s.file.Some?
    ensures FileCompleted(s, playerSampleTime).stopTimer
            == Some(Timer(CompletionDelay(s.file.value, playerSampleTime, s.player.value.capturedRate), false, true))
    ensures Quiescent(TimerFired(false, FileCompleted(s, playerSampleTime)))
    ensures TimerFired(false, FileCompleted(s, playerSampleTime)).alerts == s.alerts
    ensures TimerFired(false, FileCompleted(s, playerSampleTime)) == StopAudio(false, FileCompleted(s, playerSampleTime))
  {
  }

  lemma InitialiseAudioFileKeepsInv(simulator: bool, s: AudioState, loaded: Result<AudioFile, string>)
    requires Inv(simulator, s)
    ensures Inv(simulator, InitialiseAudioFile(simulator, s, loaded))
  {
  }

  /**
   * Whatever the slot held, playSound leaves one player beside one engine
   * wired as a chain; when it builds a new graph, the engine it replaces was
   * absent or stopped.
   */
  lemma PlaySoundKeepsInv(simulator: bool, s: AudioState, req: EffectRequest, startError: Option<string>)
    requires Inv(simulator, s)
    requires simulator || s.player.Some? || s.file.Some?
    ensures Inv(simulator, PlaySound(simulator, s, req, startError))
    ensures PlaySound(simulator, s, req, startError).engine != s.engine ==> s.engine == None || !s.engine.value.running
  {
  }

  lemma StopAudioKeepsInv(simulator: bool, s: AudioState)
    requires Inv(simulator, s)
    ensures Inv(simulator, StopAudio(simulator, s))
  {
  }

  lemma FileCompletedKeepsInv(simulator: bool, s: AudioState, playerSampleTime: Option<int>)
    requires Inv(simulator, s)
    requires s.player.Some? && s.player.value.completionPending
    ensures Inv(simulator, FileCompleted(s, playerSampleTime))
  {
  }

  lemma TimerFiredKeepsInv(simulator: bool, s: AudioState)
    requires Inv(simulator, s)
    ensures Inv(simulator, TimerFired(simulator, s))
  {
  }

  /** What can happen to the play screen's audio, one event at a time. */
  datatype Event =
    | LoadFile(loaded: Result<AudioFile, string>)
    | Play(req: EffectRequest, startError: Option<string>)
    | Stop
    | FileRendered(playerSampleTime: Option<int>)
    | StopTimerFires

  /**
   * Whether the event can happen in this state: playSound needs the file once
   * it has to build a graph, and the completion handler runs only for a live
   * player whose handler has not yet run.
   */
  predicate Enabled(simulator: bool, s: AudioState, e: Event) {
    match e
    case Play(_, _) => simulator || s.player.Some? || s.file.Some?
    case FileRendered(_) => s.player.Some? && s.player.value.completionPending && s.file.Some?
    case _ => true
  }

  function Step(simulator: bool, s: AudioState, e: Event): AudioState
    requires Enabled(simulator, s, e)
  {
    match e
    case LoadFile(loaded) => InitialiseAudioFile(simulator, s, loaded)
    case Play(req, startError) => PlaySound(simulator, s, req, startError)
    case Stop => StopAudio(simulator, s)
    case FileRendered(t) => FileCompleted(s, t)
    case StopTimerFires => TimerFired(simulator, s)
  }

  /** The state after a sequence of events, or None if one of them could not happen. */
  function Run(simulator: bool, s: AudioState, events: seq<Event>): Option<AudioState>
    decreases |events|
  {
    if events == [] then Some(s)
    else if !Enabled(simulator, s, events[0]) then None
    else Run(simulator, Step(simulator, s, events[0]), events[1..])
  }

  lemma StepKeepsInv(simulator: bool, s: AudioState, e: Event)
    requires Inv(simulator, s) && Enabled(simulator, s, e)
    ensures Inv(simulator, Step(simulator, s, e))
  {
  }

  /**
   * Every state reachable from a new screen keeps the invariant: whatever
   * the order of plays and stops, there is at most one player and one engine,
   * the engine is wired as one chain, and at most one timer is armed.
   */
  lemma {:induction false} ReachableStatesKeepInv(simulator: bool, s: AudioState, events: seq<Event>)
    requires Inv(simulator, s)
    ensures Run(simulator, s, events).Some? ==> Inv(simulator, Run(simulator, s, events).value)
    decreases |events|
  {
    if events != [] && Enabled(simulator, s, events[0]) {
      StepKeepsInv(simulator, s, events[0]);
      ReachableStatesKeepInv(simulator, Step(simulator, s, events[0]), events[1..]);
    }
  }

  lemma NewScreenKeepsInv(simulator: bool, events: seq<Event>)
    ensures Run(simulator, Unloaded, events).Some? ==> Inv(simulator, Run(simulator, Unloaded, events).value)
  {
    ReachableStatesKeepInv(simulator, Unloaded, events);
  }

  /** A stop wins over the stop timer: after stopAudio, however often the timer fires, the state stays stopped. */
  lemma {:induction false} StopWinsOverTimer(simulator: bool, s: AudioState, firings: nat)
    requires Inv(simulator, s)
    ensures Run(simulator, s, [Stop] + seq(firings, _ => StopTimerFires)) == Some(StopAudio(simulator, s))
    decreases firings
  {
    var stopped := StopAudio(simulator, s);
    CancelledTimerNeverFires(simulator, s);
    if firings == 0 {
      assert ([Stop] + seq(firings, _ => StopTimerFires))[1..] == [];
    } else {
      StopWinsOverTimer(simulator, s, firings - 1);
      var shorter := seq(firings - 1, _ => StopTimerFires);
      var events := [Stop] + seq(firings, _ => StopTimerFires);
      assert events[1..] == [StopTimerFires] + shorter;
      assert Run(simulator, stopped, [StopTimerFires] + shorter) == Run(simulator, stopped, shorter) by {
        assert ([StopTimerFires] + shorter)[1..] == shorter;
      }
      assert ([Stop] + shorter)[1..] == shorter;
    }
  }
}
