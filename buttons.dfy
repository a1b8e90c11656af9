/**
 * The play screen's buttons: each effect button's tag names one effect, the
 * effect becomes the arguments of one playSound call, and the playing state
 * decides which buttons are enabled.
 */
module Buttons {
  import opened Wrappers
  import opened AudioGraph

  const SlowRate: PosReal := 0.5
  const FastRate: PosReal := 1.5
  const HighPitch: real := 1000.0
  const LowPitch: real := -1000.0

  /** The effect buttons, in the order of their raw tag values 0 to 5. */
  datatype ButtonType = Slow | Fast | Chipmunk | Vader | Echo | Reverb

  function RawValue(b: ButtonType): (tag: int)
    ensures 0 <= tag <= 5
  {
    match b
    case Slow => 0
    case Fast => 1
    case Chipmunk => 2
    case Vader => 3
    case Echo => 4
    case Reverb => 5
  }

  /** The button type whose raw value is the tag, if there is one. */
  function ButtonFromTag(tag: int): (b: Option<ButtonType>)
    ensures b.Some? <==> 0 <= tag <= 5
    ensures forall t :: b == Some(t) ==> RawValue(t) == tag
    ensures tag == 0 ==> b == Some(Slow)
    ensures tag == 1 ==> b == Some(Fast)
    ensures tag == 2 ==> b == Some(Chipmunk)
    ensures tag == 3 ==> b == Some(Vader)
    ensures tag == 4 ==> b == Some(Echo)
    ensures tag == 5 ==> b == Some(Reverb)
  {
    if tag == 0 then Some(Slow)
    else if tag == 1 then Some(Fast)
    else if tag == 2 then Some(Chipmunk)
    else if tag == 3 then Some(Vader)
    else if tag == 4 then Some(Echo)
    else if tag == 5 then Some(Reverb)
    else None
  }

  lemma {:induction false} TagRoundTrip(b: ButtonType)
    ensures ButtonFromTag(RawValue(b)) == Some(b)
  {
    match b
    case Slow =>
    case Fast =>
    case Chipmunk =>
    case Vader =>
    case Echo =>
    case Reverb =>
  }

  /** How many of the four playSound parameters differ from their defaults. */
  function EffectCount(req: EffectRequest): nat {
    (if req.rate.Some? then 1 else 0) + (if req.pitch.Some? then 1 else 0)
    + (if req.echo then 1 else 0) + (if req.reverb then 1 else 0)
  }

  /** The playSound arguments a button asks for: one effect, every other parameter at its default. */
  function RequestFor(b: ButtonType): (req: EffectRequest)
    ensures EffectCount(req) == 1
    ensures req.rate.Some? <==> b == Slow || b == Fast
    ensures req.pitch.Some? <==> b == Chipmunk || b == Vader
    ensures req.echo <==> b == Echo
    ensures req.reverb <==> b == Reverb
    ensures b == Slow ==> req.rate == Some(0.5)
    ensures b == Fast ==> req.rate == Some(1.5)
    ensures b == Chipmunk ==> req.pitch == Some(1000.0)
    ensures b == Vader ==> req.pitch == Some(-1000.0)
  {
    match b
    case Slow => NoEffects.(rate := Some(SlowRate))
    case Fast => NoEffects.(rate := Some(FastRate))
    case Chipmunk => NoEffects.(pitch := Some(HighPitch))
    case Vader => NoEffects.(pitch := Some(LowPitch))
    case Echo => NoEffects.(echo := true)
    case Reverb => NoEffects.(reverb := true)
  }

  /** No two buttons ask for the same playback. */
  lemma RequestForIsInjective(b1: ButtonType, b2: ButtonType)
    ensures RequestFor(b1) == RequestFor(b2) ==> b1 == b2
  {
  }

  /** The requests of the tags 0 to 5, in tag order. */
  const TagRequests: seq<EffectRequest> := [
    NoEffects.(rate := Some(0.5)),
    NoEffects.(rate := Some(1.5)),
    NoEffects.(pitch := Some(1000.0)),
    NoEffects.(pitch := Some(-1000.0)),
    NoEffects.(echo := true),
    NoEffects.(reverb := true)]

  /** Each valid tag plays its declared effect: slow, fast, chipmunk, vader, echo, reverb for 0 to 5. */
  lemma TagPlaysItsEffect(tag: int)
    requires 0 <= tag <= 5
    ensures ButtonFromTag(tag).Some?
    ensures RequestFor(ButtonFromTag(tag).value) == TagRequests[tag]
  {
  }

  /** Enabled state of the six effect buttons and the stop button. */
  datatype Controls = Controls(snail: bool, chipmunk: bool, rabbit: bool, vader: bool,
                               echo: bool, reverb: bool, stop: bool)

  function EffectButtons(ui: Controls): seq<bool> {
    [ui.snail, ui.chipmunk, ui.rabbit, ui.vader, ui.echo, ui.reverb]
  }

  /** configureUI: effect buttons are enabled exactly when not playing, the stop button exactly when playing. */
  function ControlsFor(playing: bool): (ui: Controls)
    ensures ui.stop == playing
    ensures forall i :: 0 <= i < |EffectButtons(ui)| ==> EffectButtons(ui)[i] == !playing
    ensures |EffectButtons(ui)| == 6
  {
    Controls(!playing, !playing, !playing, !playing, !playing, !playing, playing)
  }

  /** In either state the stop button is enabled exactly when no effect button is. */
  lemma ControlsAreExclusive(playing: bool, i: nat)
    requires i < 6
    ensures ControlsFor(playing).stop <==> !EffectButtons(ControlsFor(playing))[i]
  {
  }
}
