/**
 * The delay after which playback is stopped once the player's scheduled file
 * has been rendered: the samples still to play, converted to seconds at the
 * file's sample rate and shortened or stretched by the requested rate.
 */
module Completion {
  import opened Wrappers
  import opened AudioGraph

  /**
   * `playerSampleTime` is the player's sample time at its last render, or
   * None when the player has no render time or no player time for it.
   */
  function CompletionDelay(file: AudioFile, playerSampleTime: Option<int>, rate: Option<PosReal>): (delay: real)
    ensures playerSampleTime == None ==> delay == 0.0
    ensures forall t :: playerSampleTime == Some(t) && rate == None ==>
      delay * file.processingFormat.sampleRate == (file.length - t) as real
    ensures forall t, r :: playerSampleTime == Some(t) && rate == Some(r) ==>
      delay * file.processingFormat.sampleRate * r == (file.length - t) as real
  {
    match playerSampleTime
    case None => 0.0
    case Some(sampleTime) =>
      var seconds := (file.length - sampleTime) as real / file.processingFormat.sampleRate;
      match rate
      case Some(r) => seconds / r
      case None => seconds
  }

  /** The delay has the sign of the remaining sample count; nothing clamps it at zero. */
  lemma DelayHasSignOfRemaining(file: AudioFile, sampleTime: int, rate: Option<PosReal>)
    ensures CompletionDelay(file, Some(sampleTime), rate) > 0.0 <==> file.length > sampleTime
    ensures CompletionDelay(file, Some(sampleTime), rate) == 0.0 <==> file.length == sampleTime
  {
  }

  /** A faster rate stops playback sooner when samples remain. */
  lemma FasterRateFinishesSooner(file: AudioFile, sampleTime: int, slow: PosReal, fast: PosReal)
    requires file.length > sampleTime
    requires slow < fast
    ensures CompletionDelay(file, Some(sampleTime), Some(fast)) < CompletionDelay(file, Some(sampleTime), Some(slow))
  {
    var sr := file.processingFormat.sampleRate;
    var dSlow := CompletionDelay(file, Some(sampleTime), Some(slow));
    var dFast := CompletionDelay(file, Some(sampleTime), Some(fast));
    DelayHasSignOfRemaining(file, sampleTime, Some(fast));
    assert dSlow * sr * slow == dFast * sr * fast;
    var c := sr * slow;
    assert c > 0.0;
    assert dFast * sr * slow < dFast * sr * fast;
    assert dFast * c < dSlow * c;
  }

  /** Without a rate the delay is the plain duration, the same as with rate 1. */
  lemma UnitRateIsNoRate(file: AudioFile, sampleTime: Option<int>)
    ensures CompletionDelay(file, sampleTime, Some(1.0)) == CompletionDelay(file, sampleTime, None)
  {
  }

  /** The slow button's rate of 0.5 doubles the time until playback is stopped. */
  lemma HalfRateDoublesDelay(file: AudioFile, sampleTime: Option<int>)
    ensures CompletionDelay(file, sampleTime, Some(0.5)) == 2.0 * CompletionDelay(file, sampleTime, None)
  {
  }

  /** One second of audio at 44100 Hz played at rate 1.5 stops after two thirds of a second. */
  lemma OneSecondAtFastRate(format: Format)
    requires format.sampleRate == 44100.0
    ensures CompletionDelay(AudioFile(44100, format), Some(0), Some(1.5)) == 2.0 / 3.0
  {
  }
}
