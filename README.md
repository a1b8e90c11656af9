# PitchPerfect playback, modelled in Dafny

PitchPerfect records the user's voice and plays it back with one of six
effects: slow, fast, chipmunk (high pitch), Darth Vader (low pitch), echo and
reverb. This project models the play screen's audio core:

- **Effect chain** (`AudioGraph`): `initialiseAudio` builds the node list
  player, time-pitch, optional echo, optional reverb, output. It attaches every
  node but the output to a new engine and connects each node to the next with
  the file's processing format. Nodes are datatype tags. The engine is a record
  of attached nodes, edges and a running flag. `Engine.Connect` requires both
  endpoints to be attached, which is the engine's own rule, so the
  attach-before-connect order is proved rather than assumed.
- **Completion delay** (`Completion`): the seconds left before the stop timer
  fires, computed over `real`.
- **Play/stop state machine** (`Playback`): one function per operation
  (`InitialiseAudioFile`, `InitialiseAudio`, `PlaySound`, `StopAudio`, the file
  completion handler `FileCompleted`, the timer firing `TimerFired`). `Inv` is
  the invariant they keep, and lemmas state the promised behaviour.
- **Buttons** (`Buttons`): the tag → button type → `playSound` argument
  mapping, and the enable rule of `configureUI(playing:)`.
- **The view controller** (`PlaySoundsController.PlaySoundsViewController`):
  a class with the controller's fields (`audioFile`, `audioEngine`,
  `audioPlayerNode`, `stopTimer`, the alerts shown and the buttons'
  enabled state). Its methods change those fields in place.
  `InitialiseAudioFile`, `PlaySound`, `StopAudio`, `FileCompleted`,
  `FireStopTimer`, `PlaySoundForButton` and `StopButtonPressed` are proved to
  keep `Valid()` and to leave the state that the matching `Playback` function
  gives. The private `InitialiseAudio` is proved only to leave the state of
  `Playback.InitialiseAudio`; it is called only with an empty player slot,
  where `PlaySound` re-establishes `Valid()`. `ConfigureUI` and
  `ViewWillAppear` change only the buttons, to `Buttons.ControlsFor`.

Inputs the program gets from outside are method parameters:
- whether the app runs in the simulator (a constructor argument);
- the result of loading the audio file;
- whether the engine starts, and the error text if it does not;
- the player's sample time at its last render, or `None` when no render or player time is available.

The model follows the code where it departs from what one might expect of a play/stop controller:
- A second `playSound` while a player exists reuses the graph and ignores the new arguments. No implicit stop happens.
- The delay is not clamped to 0 when the player's sample time is past the end of the file. It is then negative (`Completion.DelayHasSignOfRemaining`).
- After a failed engine start, the player slot stays filled and the engine stays in place. Nothing is discarded.
- Natural completion runs only `stopAudio`, which leaves the buttons in the playing state.

## Model

The `Playback` functions `InitialiseAudioFile`, `InitialiseAudio`,
`PlaySound`, `StopAudio`, `FileCompleted` and `TimerFired` define the
operations' effect on the audio state. They carry no contract of their own:
the class method of the same operation is proved equal to each of them, and
the rows of those methods and of the `Playback` lemmas stand for them.

| member | source | states |
|---|---|---|
| `AudioGraph.TimePitchFor` | PitchPerfect/PlaySoundsViewController-Audio.swift:93-100 | pitch and rate of the time-pitch node are the request's when given and the unit's defaults (0 cents, rate 1) otherwise |
| `AudioGraph.ChainFor` | PitchPerfect/PlaySoundsViewController-Audio.swift:86-121 | chain length is 3 + echo + reverb; player first, time-pitch second, output last; echo node present iff echo, reverb node (cathedral, mix 50) present iff reverb; echo before reverb; no node twice |
| `AudioGraph.ChainEdges` | PitchPerfect/PlaySoundsViewController-Audio.swift:124-126 | one edge fewer than nodes; edge i joins node i to node i+1 in the given format |
| `AudioGraph.AttachChain` | PitchPerfect/PlaySoundsViewController-Audio.swift:85-121 | the appended node list is the request's chain, and exactly the nodes before the output are attached to the new engine, in order, with no connections yet |
| `AudioGraph.ConnectChain` | PitchPerfect/PlaySoundsViewController-Audio.swift:123-126 | the connect loop leaves the attachments alone and adds exactly the chain's edges, each connection made between attached nodes |
| `AudioGraph.BuildGraph` | PitchPerfect/PlaySoundsViewController-Audio.swift:84-126 | the built list is the request's chain and the engine is the chain's graph, not yet started |
| `AudioGraph.GraphAttachesAllButOutput` | PitchPerfect/PlaySoundsViewController-Audio.swift:88-126 | the output node is never attached; every other chain node is; the engine is not running before start |
| `AudioGraph.GraphIsLinear` | PitchPerfect/PlaySoundsViewController-Audio.swift:123-126 | len-1 edges all in the file's format, starting at the player and ending at the output, consecutive edges sharing a node, no node with two outgoing or two incoming edges |
| `AudioGraph.NoEffectsChain` | PitchPerfect/PlaySoundsViewController-Audio.swift:86-126 | with no effect the chain is player, pass-through time-pitch, output, joined by two edges |
| `Completion.CompletionDelay` | PitchPerfect/PlaySoundsViewController-Audio.swift:132-141 | 0 without render/player time; otherwise the delay times the sample rate (times the rate when one was given) equals the samples left |
| `Completion.DelayHasSignOfRemaining` | PitchPerfect/PlaySoundsViewController-Audio.swift:134-141 | the delay is positive iff samples remain and zero iff none remain |
| `Completion.FasterRateFinishesSooner` | PitchPerfect/PlaySoundsViewController-Audio.swift:136-137 | with samples left, a larger rate gives a strictly smaller delay |
| `Completion.UnitRateIsNoRate` | PitchPerfect/PlaySoundsViewController-Audio.swift:136-140 | rate 1 gives the same delay as no rate |
| `Completion.HalfRateDoublesDelay` | PitchPerfect/PlaySoundsViewController-Audio.swift:136-140 | rate 0.5 doubles the delay |
| `Completion.OneSecondAtFastRate` | PitchPerfect/PlaySoundsViewController-Audio.swift:137 | 44100 samples at 44100 Hz and rate 1.5 give 2/3 s |
| `Buttons.RawValue` | PitchPerfect/PlaySoundsViewController.swift:43 | every button type's raw value is in 0...5 |
| `Buttons.ButtonFromTag` | PitchPerfect/PlaySoundsViewController.swift:43 | a tag names a button type iff it is in 0...5; tags 0 to 5 name slow, fast, chipmunk, vader, echo and reverb, and that type's raw value is the tag |
| `Buttons.TagPlaysItsEffect` | PitchPerfect/PlaySoundsViewController.swift:78-91 | tags 0 to 5 play rate 0.5, rate 1.5, pitch 1000, pitch -1000, echo and reverb in that order, every other parameter at its default |
| `Buttons.TagRoundTrip` | PitchPerfect/PlaySoundsViewController.swift:43 | a button type's raw value maps back to that button type |
| `Buttons.RequestFor` | PitchPerfect/PlaySoundsViewController.swift:78-91 | each button requests exactly one effect, all other parameters at their defaults: slow rate 0.5, fast rate 1.5, chipmunk pitch 1000, vader pitch -1000, echo, reverb |
| `Buttons.RequestForIsInjective` | PitchPerfect/PlaySoundsViewController.swift:78-91 | different buttons request different playback |
| `Buttons.ControlsFor` | PitchPerfect/PlaySoundsViewController-Audio.swift:158-167 | the six effect buttons are enabled iff not playing; the stop button iff playing |
| `Buttons.ControlsAreExclusive` | PitchPerfect/PlaySoundsViewController-Audio.swift:158-167 | in either state the stop button is enabled exactly when each effect button is not |
| `Playback.SimulatorChangesNothing` | PitchPerfect/PlaySoundsViewController-Audio.swift:34-82 | in the simulator initialiseAudioFile, initialiseAudio, playSound and stopAudio leave the state as it was |
| `Playback.FirstPlayBuildsChain` | PitchPerfect/PlaySoundsViewController-Audio.swift:52-56 | with the slot empty, playSound installs the request's chain and edges in the file's format, starts the engine iff the start succeeds, raises no alert when it succeeds, and fills the slot with a playing player that captured the rate |
| `Playback.EngineFailureKeepsSlot` | PitchPerfect/PlaySoundsViewController-Audio.swift:89-153 | a failed start adds one "Audio Engine Error" alert, leaves the engine stopped and the player slot filled |
| `Playback.SecondPlayReusesGraph` | PitchPerfect/PlaySoundsViewController-Audio.swift:52-56 | with a player in the slot, playSound's result does not depend on its arguments: only the player is told to play |
| `Playback.StopAudioQuiesces` | PitchPerfect/PlaySoundsViewController-Audio.swift:59-77 | after stopAudio the slot is empty, any timer invalid, any engine stopped; the file and alerts are unchanged |
| `Playback.StopAudioIsIdempotent` | PitchPerfect/PlaySoundsViewController-Audio.swift:59-77 | stopAudio changes nothing when nothing plays, nothing on an empty screen, and nothing further when called twice |
| `Playback.CancelledTimerNeverFires` | PitchPerfect/PlaySoundsViewController-Audio.swift:69-71 | once stopAudio has invalidated the timer, its firing changes nothing |
| `Playback.CompletionEndsPlayback` | PitchPerfect/PlaySoundsViewController-Audio.swift:130-146 | the completion handler arms a one-shot (non-repeating) valid timer for the completion delay, and its firing gives exactly stopAudio's state, leaving nothing playing, the file and graph kept and no alert |
| `Playback.InitialiseAudioFileKeepsInv` | PitchPerfect/PlaySoundsViewController-Audio.swift:34-45 | loading the file keeps the invariant |
| `Playback.PlaySoundKeepsInv` | PitchPerfect/PlaySoundsViewController-Audio.swift:47-57 | playSound keeps the invariant (at most one player, beside one engine wired as a chain, an engine without a player stopped, no armed timer from an earlier graph), and a graph it builds replaces only an absent or stopped engine |
| `Playback.StopAudioKeepsInv` | PitchPerfect/PlaySoundsViewController-Audio.swift:59-77 | stopAudio keeps the invariant |
| `Playback.FileCompletedKeepsInv` | PitchPerfect/PlaySoundsViewController-Audio.swift:130-146 | the completion handler keeps the invariant: the only armed timer belongs to the live player |
| `Playback.TimerFiredKeepsInv` | PitchPerfect/PlaySoundsViewController-Audio.swift:144-145 | the stop timer firing keeps the invariant |
| `Playback.StepKeepsInv` | PitchPerfect/PlaySoundsViewController-Audio.swift:34-146 | each of load, play, stop, completion handler and timer firing keeps the invariant |
| `Playback.ReachableStatesKeepInv` | PitchPerfect/PlaySoundsViewController-Audio.swift:47-146 | after any sequence of loads, plays, stops, completions and timer firings that can happen, the invariant still holds: one player slot, one chain-wired engine that is stopped whenever the slot is empty, at most one armed timer |
| `Playback.NewScreenKeepsInv` | PitchPerfect/PlaySoundsViewController.swift:36-41 | every state reachable from a new screen satisfies the invariant |
| `Playback.StopWinsOverTimer` | PitchPerfect/PlaySoundsViewController-Audio.swift:59-77 | after stopAudio, any number of later timer firings leave the stopped state unchanged |
| `PlaySoundsController.PlaySoundsViewController.constructor` | PitchPerfect/PlaySoundsViewController.swift:36-41 | a new screen has no file, engine, player or timer and satisfies the invariant |
| `PlaySoundsController.PlaySoundsViewController.InitialiseAudioFile` | PitchPerfect/PlaySoundsViewController-Audio.swift:34-45 | stores the loaded file, or adds an "Audio File Error" alert with the loader's message; nothing in the simulator |
| `PlaySoundsController.PlaySoundsViewController.ViewWillAppear` | PitchPerfect/PlaySoundsViewController.swift:62-65 | appearing always shows the not-playing buttons |
| `PlaySoundsController.PlaySoundsViewController.ConfigureUI` | PitchPerfect/PlaySoundsViewController-Audio.swift:158-167 | sets the seven buttons to the enable rule for the given state |
| `PlaySoundsController.PlaySoundsViewController.PlaySound` | PitchPerfect/PlaySoundsViewController-Audio.swift:47-57 | keeps the invariant and leaves the state `Playback.PlaySound` gives; buttons untouched |
| `PlaySoundsController.PlaySoundsViewController.StopAudio` | PitchPerfect/PlaySoundsViewController-Audio.swift:59-77 | keeps the invariant and leaves the state `Playback.StopAudio` gives; buttons untouched |
| `PlaySoundsController.PlaySoundsViewController.InitialiseAudio` | PitchPerfect/PlaySoundsViewController-Audio.swift:79-154 | leaves the state `Playback.InitialiseAudio` gives, building the engine through `BuildGraph` |
| `PlaySoundsController.PlaySoundsViewController.FileCompleted` | PitchPerfect/PlaySoundsViewController-Audio.swift:130-146 | keeps the invariant and arms the stop timer as `Playback.FileCompleted` gives |
| `PlaySoundsController.PlaySoundsViewController.FireStopTimer` | PitchPerfect/PlaySoundsViewController-Audio.swift:144-145 | keeps the invariant; a valid timer runs stopAudio and is spent, an invalid one changes nothing; buttons untouched |
| `PlaySoundsController.PlaySoundsViewController.PlaySoundForButton` | PitchPerfect/PlaySoundsViewController.swift:69-92 | a tag outside 0...5 changes nothing; otherwise the buttons show playing and the state is playSound's for that button's request |
| `PlaySoundsController.PlaySoundsViewController.StopButtonPressed` | PitchPerfect/PlaySoundsViewController.swift:94-97 | the buttons show not playing and the state is stopAudio's |

## Left out

- The signal processing of the time-pitch, distortion and reverb units, and the decoding of the audio file. These are framework code. Nodes are tags and the file is its length and format.
- Float and Double arithmetic. The delay is exact over `real`. The Float→Double conversion of the rate and all rounding are not modelled.
- Completion.CompletionDelay: rates are positive reals. A zero or negative rate, which IEEE division would turn into an infinite, NaN or negative interval, is outside the model.
- The render-thread completion callback and the run loop are not modelled as concurrent. `FileCompleted` is a method called with the player still in the slot and its completion pending. The case where the handler runs after `stopAudio` has emptied the slot, which the framework allows because stopping a player also calls the handler, is not modelled. Nor is any race between the timer and the stop button.
- Timer scheduling. A timer is a value (interval, repeats, valid). Firing it is the method `FireStopTimer`, and time is not modelled. The interval is stored as computed, even when it is 0 or negative; Foundation's timer then uses 0.1 ms instead, which is not modelled.
- PlaySoundsController.PlaySoundsViewController.PlaySound, PlaySoundsController.PlaySoundsViewController.PlaySoundForButton, Playback.PlaySound, Playback.InitialiseAudio and Playback.Enabled: require the file to be loaded when the slot is empty and the app is not in the simulator. Line 125 force-unwraps `audioFile`, so the source traps otherwise. The trap itself is not modelled.
- Framework behaviour beyond the graph: `AVAudioEngine.reset` is modelled only as the engine no longer running. Telling a player to play on an engine that failed to start is modelled as the player's `playing` flag.
- The order "buttons first, then playSound" in `playSoundForButton` is not visible in the model, because `playSound` never touches the buttons. The model states the final state of both.
- Alert presentation. An alert is a (title, message) pair appended to the controller's list. The error descriptions come from the caller.
- `viewDidLoad`: it calls `initialiseAudioFile`, which is modelled. Its text view and image `contentMode` settings are not modelled.
- The `print` of an unexpected button tag, and the commented-out `transcribeFile`.
- `PlayingState`: declared and never used.
- Recording, speech recognition and the segue into the play screen (`RecordSoundsViewController.swift`, `RecordSoundsViewController-Recorder.swift`) are not part of this model.
- `Utilities.runningInSimulator` is the constructor's `simulator` argument.
