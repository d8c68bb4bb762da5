# pv_cobra_redux: a Dafny model of the wrapper's error layer and the microphone ingestion step

pv_cobra_redux binds Picovoice's closed-source Cobra voice-activity-detection engine into Rust.
This project models its two sequential parts and proves properties about them:

- **The status/error layer of the safe wrapper** (`src/lib.rs`). `Error`, its conversion from the native
  `pv_status_t` code (`FromStatus`), and its `Display` text (`Message`). Each is paired with an inverse
  (`StatusCode`, `ParseMessage`), and round-trip lemmas are proved.
- **The `Cobra` handle's lifecycle** (`src/lib.rs`). The native library is a `Library` object with three parts:
  - the free queries `sample_rate()`/`frame_length()` as constants;
  - the engine's answers as oracle functions of everything called so far;
  - a log of every `pv_cobra_init` / `pv_cobra_process` / `pv_cobra_delete` call.

  `Cobra.New` picks its result in the source's order: an interior NUL gives `NullValue` with no init call; then a
  failing status; then a null handle. `Cobra.Process` needs a live value. `Cobra.Drop` deletes the instance, and it
  can do so only once because it needs a live value. Calls on an instance are allowed only while `Open(log)`
  still holds it. So the log cannot show a use after delete or a double delete (`NoUseAfterDelete`).
- **The `add_samples` closure of `examples/mic.rs`**. `AudioInputProcessor.AddSamples` takes the try-lock outcome
  as input and has these paths:
  - `WouldBlock`: drops the block and returns `Ok` with nothing changed.
  - `Poisoned`: returns an error with nothing changed.
  - `Acquired`: resamples, folds to mono (`ToMono`), and appends to `buf`. Once the buffer reaches the threshold,
    it takes the buffer out of its slot, scores the whole vector, clears it and puts it back. It then sets the
    progress position from the confidence.

  If the engine call fails, the error propagates and the slot is left `None`. Every stream callback in the example
  turns a returned error into a panic at once (`.expect`), so the closure is not called again there. If it were,
  the next call that gets the lock would panic at the `unwrap`. Odd-length stereo blocks also panic (`chunk[1]`). Both panics are `Panic` outcomes,
  separate from `Err`.

Two behaviours of the code shape the model:
- `main` passes `pv_cobra_redux::sample_rate()` as the threshold, not `frame_length()` (`FullFrameIsBuffered`,
  `SilentSecond`).
- The engine gets the entire accumulated vector, which may be longer than the threshold.

Assumptions at the edges:
- `process` hands the native library only `pcm.as_ptr()`, with no length. The model assumes `pv_cobra_process`
  reads exactly the engine's `frameLength` samples from that pointer. So the oracle sees `pcm[..frameLength]`,
  and the rest are dropped when the buffer is cleared. `AddSamples` requires the threshold to be at least the
  engine's frame length, which keeps that read in bounds.
- The numeric status codes follow the order of the native `pv_status_t` enumeration (SUCCESS = 0 up to
  ACTIVATION_REFUSED = 11). The generated bindings `src/ffi.rs` are not part of this model.
- `pv_status_t` is taken as a 32-bit unsigned code, so `status as c_uint` keeps it unchanged.
- Float arithmetic is over exact reals: quantisation is `Quantise`; the progress bar position is `ProgressPosition`.
- The streaming resampler `Resampler` answers each block with a function of all blocks it has seen.

Files: `wrappers.dfy`, `numeric.dfy`, `decimal.dfy` (printing a `c_uint` with `{}`), `errors.dfy`, `engine.dfy`,
`mixer.dfy`, `mic.dfy`.

## Model

| member | source | states |
|---|---|---|
| Errors.FromStatus | src/lib.rs:39-56 | never `NullValue`; `UnknownError` exactly for codes outside the eleven named ones, and then it carries the code unchanged; an activation variant exactly for the four activation codes |
| Errors.FromStatusTable | src/lib.rs:41-52 | each of the eleven named failure codes maps to its own variant |
| Errors.StatusCodeOfFromStatus | src/lib.rs:53 | the code is recoverable from the error for every status |
| Errors.FromStatusInjective | src/lib.rs:41-53 | distinct status codes give distinct errors |
| Errors.FromStatusOfStatusCode | src/lib.rs:39-56 | the errors the conversion produces are exactly the non-`NullValue` ones that are not `UnknownError` of a named code, each produced from its `StatusCode` |
| Errors.Message | src/lib.rs:58-76 | every message is non-empty, and it starts with the unknown-status prefix exactly for `UnknownError` |
| Errors.ParseNamedMessage | src/lib.rs:61-72 | each fixed message is read back as its own variant |
| Errors.ParseUnknownMessage | src/lib.rs:73 | the `UnknownError(c)` message is the prefix followed by the decimal of `c`, and `c` is read back from it |
| Errors.ParseMessageOfMessage | src/lib.rs:58-76 | `Display` is invertible: every message names its variant |
| Errors.MessageInjective | src/lib.rs:59-75 | distinct variants display distinct messages |
| Errors.ActivationMessages | src/lib.rs:69-72 | a message begins with "activation" exactly when the error is one of the four activation errors |
| Decimal.NatToString | src/lib.rs:73 | `{}` of an unsigned code is a non-empty string of digits with no leading zero |
| Decimal.StringToNatOfNatToString | src/lib.rs:73 | the printed code reads back as the code |
| Decimal.NatToStringInjective | src/lib.rs:73 | distinct codes print differently |
| Engine.InitOutcome | src/lib.rs:93-99 | success exactly when status is 0 and the handle is non-null, holding that handle; a non-zero status gives the error `FromStatus` converts it to (so the code is recoverable); status 0 with a null handle gives `NullValue` |
| Engine.ProcessOutcome | src/lib.rs:103-109 | success exactly when status is 0, holding the confidence written, or 0.0 when none was written; a non-zero status gives the error `FromStatus` converts it to |
| Engine.Cobra.New | src/lib.rs:89-100 | a key with a NUL gives `NullValue` and makes no native call; otherwise one init call, and the result is `InitOutcome` of its reply, a fresh live `Cobra` on success |
| Engine.Cobra.Process | src/lib.rs:102-110 | needs a live value and at least a frame of samples; one process call with the whole slice; result is `ProcessOutcome` of the engine's answer to its first frame |
| Engine.Cobra.Drop | src/lib.rs:113-118 | needs a live value; logs exactly one delete of the handle and leaves the value dead and the handle released |
| Engine.Cobra.Wrap | src/lib.rs:98 | a wrapped handle is live and valid |
| Engine.Library.Init | src/lib.rs:92 | the init call is logged together with the engine's reply |
| Engine.Library.Process | src/lib.rs:104 | the engine answers from the first `frameLength` samples only; the call is logged and no instance is opened or released |
| Engine.Library.Delete | src/lib.rs:116 | only a live instance is deleted, and it is released afterwards |
| Engine.ClosedAfterDelete | src/lib.rs:113-118 | after a delete, the instance stays released until an init hands it out again |
| Engine.NoUseAfterDelete | src/lib.rs:113-118 | in any log the wrapper can produce, no process or second delete reaches a deleted instance |
| Mixer.Quantise | examples/mic.rs:115 | without saturation, the nearest integer to `x * 32767`, a tie going away from zero; at or beyond the i16 range, i16::MAX or i16::MIN |
| Mixer.QuantiseSilence | examples/mic.rs:115 | silence quantises to 0 |
| Mixer.QuantiseBounds | examples/mic.rs:115 | inputs in [-1, 1] quantise into [-32767, 32767], full scale to ±32767 |
| Mixer.QuantiseOdd | examples/mic.rs:115 | quantisation is symmetric on [-1, 1] |
| Mixer.QuantiseMonotone | examples/mic.rs:115 | quantisation is monotone |
| Mixer.MonoSamples | examples/mic.rs:112-116 | one output per input sample, output i being the quantised input i |
| Mixer.Downmix | examples/mic.rs:117-128 | defined exactly for even lengths (odd ones panic); half as many outputs, output i being the quantised mean of inputs 2i and 2i+1 |
| Mixer.ToMono | examples/mic.rs:112-128 | fails exactly for an odd block on a stream with other than one channel; one channel maps each sample, any other count pairs them |
| Mixer.SilenceStaysSilent | examples/mic.rs:112-128 | silence of any admissible length folds to silence of the expected length |
| Mixer.DownmixIsLocal | examples/mic.rs:120-126 | stereo output i depends on inputs 2i and 2i+1 only |
| Mixer.CancellingPair | examples/mic.rs:122-125 | the stereo pair (x, -x) gives what mono 0 gives |
| Mixer.OppositeChannelsCancel | examples/mic.rs:119-127 | left at +1.0 and right at -1.0 downmix to all zeros |
| Mic.ProgressPosition | examples/mic.rs:137 | truncation of `confidence * 100` toward zero; 0 at or below zero and u64::MAX at or above 2^64; at most 100 for a confidence in [0, 1] |
| Mic.Resampler.Process | examples/mic.rs:110 | the block joins the resampler's history and its answer is a function of that history |
| Mic.AudioInputProcessor.New | examples/mic.rs:20-32 | the engine comes from `Cobra.New` with the same failures and the same single init call; on success the processor holds a fresh `Cobra` with the handle init handed out, and the buffer is present and empty |
| Mic.AudioInputProcessor.AddSamples | examples/mic.rs:106-148 | would-block: `Ok`, nothing changed; poisoned: error, nothing changed; resampler or odd-stereo or missing-buffer failure: buffer and engine untouched; short of the threshold: buffer is old ++ new and no engine call; otherwise exactly one engine call with the whole old ++ new, then an empty buffer and the position from the confidence, or on engine failure its error and an empty slot; an `Ok` call keeps the buffer present and below the threshold |
| Mic.SilentSecond | examples/mic.rs:97-138 | a second of mono silence at the sample-rate threshold makes one engine call, confidence 0, empty buffer |
| Mic.FullFrameIsBuffered | examples/mic.rs:97-132 | with the sample rate (16000) as threshold, a block of exactly one engine frame (512 samples) is buffered, not scored: the only native call is init |
| Mic.EngineFailureLosesBuffer | examples/mic.rs:133-134 | a failing engine call returns its error and leaves the buffer slot `None` |

## Left out

- The resampler's sinc conversion (`samplerate::Samplerate`) is foreign float code. Its output for each block is an oracle of the block history, and constructing it (and that construction failing) is not modelled.
- `convert_samples_to_f32`, device lookup, stream building, the sample-format dispatch, CLI parsing, reading the key from the environment, and the sleeping main loop are audio I/O and process plumbing.
- The `eprintln!` diagnostics on a dropped block, and the progress bar beyond its position, are output only.
- Mutex semantics, `Arc`, threads and `unsafe impl Send` are not modelled; only the try-lock outcome is, as an input.
- Mic.AudioInputProcessor.AddSamples: it does not record that a panic while holding the guard poisons the mutex for later calls, because the lock outcome is an input.
- Mic.AudioInputProcessor.AddSamples: it requires the threshold to be at least the engine's frame length. `main` passes the sample rate, which exceeds the frame length only because of what the native library reports. A smaller threshold would make the native read overrun the buffer, and that case is not modelled.
- Engine.Cobra.Drop: Rust runs `Drop` automatically when a `Cobra` goes out of scope, for example when `main` returns early through `?`. The model proves the handle is deleted at most once, since `Drop` requires a live value. It does not make any caller call `Drop`, so "deleted on every exit path" is not captured.
- Engine.Cobra.Process: it requires a slice of at least the engine's frame length. The source accepts a shorter one and passes only its pointer, so the native read would overrun it; that case is not modelled (Engine.Library.Process has the same requirement).
- Mixer.Quantise: it is computed over exact reals, not `f32`. Rounding of the float product and NaN inputs are not modelled.
- Mic.ProgressPosition: it is computed over exact reals, not `f32`, and NaN is not modelled.
- `lib_version` and its UTF-8 `unwrap` are not modelled: it is a foreign query with no logic in the wrapper.
- The native engine's behaviour is an oracle, not a model: `pv_cobra_init`, `pv_cobra_process` and `pv_cobra_delete`.
- The `i32` to `usize` cast of the sample rate in `main`: the model treats the sample rate as a natural number.
- `std::error::Error::source` (always `None`) is not modelled.
- `build.rs` is build-time I/O and is not modelled.
