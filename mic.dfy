/**
 * The ingestion step of the microphone example: the `add_samples` closure
 * and the `AudioInputProcessor` state it updates under the mutex.
 */
module Mic {
  import opened Wrappers
  import opened Numeric
  import opened Errors
  import opened Engine
  import opened Mixer

  /**
   * The streaming resampler. It keeps state between calls, so its answer to
   * a block is taken to be a function of every block it has been given.
   */
  class Resampler {
    const convert: seq<seq<real>> -> Result<seq<real>, string>
    var consumed: seq<seq<real>>

    constructor (convert: seq<seq<real>> -> Result<seq<real>, string>)
      ensures this.convert == convert && consumed == []
    {
      this.convert := convert;
      consumed := [];
    }

    method Process(samples: seq<real>) returns (r: Result<seq<real>, string>)
      modifies this
      ensures consumed == old(consumed) + [samples]
      ensures r == convert(consumed)
    {
      consumed := consumed + [samples];
      r := convert(consumed);
    }
  }

  /** The outcome of `proc.try_lock()`. */
  datatype LockOutcome = Acquired | WouldBlock | Poisoned

  /** The errors `add_samples` returns. */
  datatype AppError =
    | ResampleFailed(message: string)
    | EngineFailed(error: Error)
    | LockPoisoned

  /** Where `add_samples` panics instead of returning. */
  datatype PanicSite = OddStereoBlock | MissingBuffer

  /** How a call of `add_samples` ends. */
  datatype Outcome = Ok | Err(error: AppError) | Panic(site: PanicSite)

  /**
   * `(confidence * 100.0) as u64`: truncation toward zero, saturating at 0
   * and at u64::MAX.
   */
  function ProgressPosition(confidence: real): (p: nat)
    ensures p <= U64_MAX
    ensures confidence * 100.0 <= 0.0 ==> p == 0
    ensures 0.0 <= confidence * 100.0 < (U64_MAX + 1) as real ==>
              p as real <= confidence * 100.0 < p as real + 1.0
    ensures confidence * 100.0 >= (U64_MAX + 1) as real ==> p == U64_MAX
    ensures 0.0 <= confidence <= 1.0 ==> p <= 100
  {
    var y := confidence * 100.0;
    if y <= 0.0 then 0 else if y >= (U64_MAX + 1) as real then U64_MAX else y.Floor
  }

  class AudioInputProcessor {
    const resampler: Resampler
    var buf: Option<seq<i16>>
    const cobra: Cobra
    /** The progress bar's position. */
    var position: nat

    ghost predicate Valid()
      reads this, cobra, cobra.lib
    {
      cobra.Valid() && cobra.live
    }

    /** The buffer is present and short of a full frame. */
    ghost predicate Bounded(frameLength: nat)
      reads this
    {
      buf.Some? && |buf.value| < frameLength
    }

    constructor Wrap(resampler: Resampler, cobra: Cobra)
      requires cobra.Valid() && cobra.live
      ensures this.resampler == resampler && this.cobra == cobra
      ensures buf == Some([]) && position == 0
      ensures Valid()
    {
      this.resampler := resampler;
      this.cobra := cobra;
      buf := Some([]);
      position := 0;
    }

    /**
     * `AudioInputProcessor::new` once the resampler is built: the engine is
     * created from the key and the buffer starts empty.
     */
    static method New(resampler: Resampler, lib: Library, accessKey: seq<u8>)
      returns (r: Result<AudioInputProcessor, Error>)
      requires lib.Valid()
      modifies lib
      ensures lib.Valid()
      ensures 0 in accessKey ==> r == Failure(NullValue) && lib.log == old(lib.log)
      ensures 0 !in accessKey ==>
        var reply := lib.initReply(old(lib.log), accessKey);
        var outcome := InitOutcome(reply);
        lib.log == old(lib.log) + [InitCall(accessKey, reply)] &&
        (outcome.Failure? ==> r == Failure(outcome.error)) && (outcome.Success? ==>
          r.Success? && fresh(r.value.cobra) && r.value.cobra.handle == outcome.value)
      ensures r.Success? ==>
        fresh(r.value) && r.value.resampler == resampler && r.value.cobra.lib == lib
        && r.value.buf == Some([]) && r.value.position == 0 && r.value.Valid()
    {
      var cobra := Cobra.New(lib, accessKey);
      if cobra.Failure? {
        return Failure(cobra.error);
      }
      var processor := new AudioInputProcessor.Wrap(resampler, cobra.value);
      r := Success(processor);
    }

    /**
     * The `add_samples` closure for a stream of `channels` channels, with
     * `frameLength` the threshold `main` captured and `lock` the outcome of
     * the non-blocking lock attempt.
     */
    method AddSamples(channels: nat, frameLength: nat, lock: LockOutcome, samples: seq<real>)
      returns (r: Outcome)
      requires Valid()
      requires frameLength >= cobra.lib.frameLength
      modifies this, resampler, cobra.lib
      ensures Valid()
      ensures lock == WouldBlock ==> r == Ok && unchanged(this, resampler, cobra.lib)
      ensures lock == Poisoned ==> r == Err(LockPoisoned) && unchanged(this, resampler, cobra.lib)
      ensures lock == Acquired ==> resampler.consumed == old(resampler.consumed) + [samples]
      ensures lock == Acquired && resampler.convert(resampler.consumed).Failure? ==>
        r == Err(ResampleFailed(resampler.convert(resampler.consumed).error)) && unchanged(this, cobra.lib)
      ensures lock == Acquired && resampler.convert(resampler.consumed).Success? ==>
        var mono := ToMono(channels, resampler.convert(resampler.consumed).value, Quantise);
        (mono.None? ==> r == Panic(OddStereoBlock) && unchanged(this, cobra.lib)) &&
        (mono.Some? && old(buf).None? ==> r == Panic(MissingBuffer) && unchanged(this, cobra.lib)) &&
        (mono.Some? && old(buf).Some? ==>
          var acc := old(buf).value + mono.value;
          (|acc| < frameLength ==>
             r == Ok && buf == Some(acc) && position == old(position) && unchanged(cobra.lib)) &&
          (|acc| >= frameLength ==>
             cobra.lib.log == old(cobra.lib.log) + [ProcessCall(cobra.handle, acc)] &&
             var outcome := ProcessOutcome(cobra.lib.processReply(old(cobra.lib.log), cobra.handle, acc[..cobra.lib.frameLength]));
             (outcome.Failure? ==> r == Err(EngineFailed(outcome.error)) && buf == None && position == old(position)) &&
             (outcome.Success? ==> r == Ok && buf == Some([]) && position == ProgressPosition(outcome.value))))
      ensures frameLength > 0 && old(Bounded(frameLength)) && r == Ok ==> Bounded(frameLength)
    {
      if lock == WouldBlock {
        // The source logs that processing is falling behind and drops the block.
        return Ok;
      } else if lock == Poisoned {
        return Err(LockPoisoned);
      }
      var resampled := resampler.Process(samples);
      if resampled.Failure? {
        return Err(ResampleFailed(resampled.error));
      }
      var mono := ToMono(channels, resampled.value, Quantise);
      if mono.None? {
        return Panic(OddStereoBlock);
      }
      if buf.None? {
        return Panic(MissingBuffer);
      }
      buf := Some(buf.value + mono.value);
      if |buf.value| >= frameLength {
        var frame := buf.value;
        buf := None;
        var confidence := cobra.Process(frame);
        if confidence.Failure? {
          return Err(EngineFailed(confidence.error));
        }
        frame := [];
        buf := Some(frame);
        position := ProgressPosition(confidence.value);
      }
      r := Ok;
    }
  }

  /**
   * One second of mono silence through a processor whose engine reports 0.0
   * for an all-zero frame: one engine call, confidence 0, buffer emptied.
   */
  method SilentSecond() returns (r: Outcome, position: nat, calls: nat, buf: Option<seq<i16>>)
    ensures r == Ok && position == 0 && calls == 2 && buf == Some([])
  {
    var lib := new Library(16000, 512,
      (log, key) => InitReply(STATUS_SUCCESS, 1),
      (log, h, pcm) => ProcessReply(STATUS_SUCCESS,
        Some(if forall i | 0 <= i < |pcm| :: pcm[i] == 0 then 0.0 else 0.5)));
    var resampler := new Resampler(history => if history == [] then Success([]) else Success(history[|history| - 1]));
    var created := AudioInputProcessor.New(resampler, lib, [1, 2, 3]);
    if created.Failure? {
      assert false;
      return;
    }
    var processor := created.value;
    var silence := seq(16000, _ => 0.0);
    SilenceStaysSilent(1, 16000, Quantise);
    r := processor.AddSamples(1, lib.sampleRate, Acquired, silence);
    position := processor.position;
    calls := |lib.log|;
    buf := processor.buf;
  }

  /**
   * An engine call that fails returns its error and leaves the buffer slot
   * empty. This run makes one call; by the `MissingBuffer` case of
   * `AddSamples`, a later block that got the lock would panic at the unwrap.
   */
  method EngineFailureLosesBuffer() returns (r: Outcome, buf: Option<seq<i16>>)
    ensures r == Err(EngineFailed(RuntimeError)) && buf == None
  {
    var lib := new Library(16000, 512,
      (log, key) => InitReply(STATUS_SUCCESS, 1),
      (log, h, pcm) => ProcessReply(STATUS_RUNTIME_ERROR, None));
    var resampler := new Resampler(history => if history == [] then Success([]) else Success(history[|history| - 1]));
    var created := AudioInputProcessor.New(resampler, lib, [1, 2, 3]);
    if created.Failure? {
      assert false;
      return;
    }
    var processor := created.value;
    var silence := seq(16000, _ => 0.0);
    assert |MonoSamples(silence, Quantise)| == 16000;
    assert ProcessOutcome(ProcessReply(STATUS_RUNTIME_ERROR, None)) == Failure(RuntimeError);
    r := processor.AddSamples(1, lib.sampleRate, Acquired, silence);
    buf := processor.buf;
  }

  /**
   * Because the threshold is the sample rate, a block holding exactly one
   * engine frame is buffered and not scored: init is the only native call.
   */
  method FullFrameIsBuffered() returns (r: Outcome, calls: nat, buf: Option<seq<i16>>)
    ensures r == Ok && calls == 1
    ensures buf.Some? && |buf.value| == 512
  {
    var lib := new Library(16000, 512,
      (log, key) => InitReply(STATUS_SUCCESS, 1),
      (log, h, pcm) => ProcessReply(STATUS_SUCCESS, Some(0.0)));
    var resampler := new Resampler(history => if history == [] then Success([]) else Success(history[|history| - 1]));
    var created := AudioInputProcessor.New(resampler, lib, [1, 2, 3]);
    if created.Failure? {
      assert false;
      return;
    }
    var processor := created.value;
    var frame := seq(lib.frameLength, _ => 0.0);
    assert |MonoSamples(frame, Quantise)| == 512;
    r := processor.AddSamples(1, lib.sampleRate, Acquired, frame);
    calls := |lib.log|;
    buf := processor.buf;
  }
}
