# adi_speaker: playback, capture and ALSA error translation

This project models the core of `adi_speaker`, a small Rust library that
plays and records 16-bit PCM audio through ALSA. It covers four parts:

- `set_settings`: the hardware-parameter negotiation that both stream
  kinds share.
- `Speaker`: opening and sizing the playback stream, the refill
  arithmetic, the generator-driven fill of the scratch buffer, and the
  write → recover → retry → panic protocol.
- `Microphone`: opening the capture stream and the single read that turns
  an error into 0.
- The ALSA binding's error layer (`acheck!`, `Error`) and its two shared
  enums (`Direction`, `ValueOr`).

The ALSA driver itself, `alsa::pcm` and `alsa::Context`, is not part of
this model. `AlsaDriver.Driver` stands in for it:

- It is an oracle. The reply to a call is a function of every call issued
  before it.
- It keeps a log of all calls, so the order and number of calls the
  library makes can be stated exactly.
- A panic, from `unwrap()`, `assert_eq!` or `panic!`, ends an operation
  with `Fatal(panic)`, and nothing after it runs.

The library's straight-line call sequences are written as `Plan`s:

- A `Must` step is unwrapped.
- An `Expect` step is unwrapped and then compared by `assert_eq!`.
- An `Ignore` step's result is discarded.
- `Exec` is what a plan does against the oracle.

Each method that issues such a sequence is proved to leave exactly
`Exec(plan).log` in the driver's log and to return `Exec(plan).outcome`.
Lemmas about `Exec` and about the individual plans then give the
properties.

Arithmetic is that of a 64-bit release build: `i64` subtraction wraps, and
`as usize` reinterprets a negative value. The host's endianness, which
`cfg!(target_endian)` fixes at build time, is the parameter `endian`.

Files:

| file | module | contents |
|---|---|---|
| `alsa_mod.dfy` | `Alsa` | `Direction`, `ValueOr` |
| `alsa_error.dfy` | `AlsaError` | `acheck!`, `Error::new`, `Display`, `description`, `cause`, `From<Error> for fmt::Error` |
| `alsa_driver.dfy` | `AlsaDriver` | the oracle driver, steps, plans and `Exec` |
| `lib.dfy` | `AdiSpeaker` | `set_settings`, `Speaker`, `Microphone` |

## Behaviour worth knowing

- **Releasing the parameter object.** `set_settings` frees the hardware
  parameter object only at its end (src/lib.rs:23-38). A failed `unwrap`
  or `assert_eq!` panics before `hwp.drop` runs. `SettingsFatal` proves
  that a negotiation which panics issues no free at all.
  `SettingsCompletedLog` proves that one which goes through frees exactly
  once.
- **Sizing the scratch buffer.** `Speaker::new` allocates
  `period_size * 2` samples, with no factor for the channel count
  (src/lib.rs:60-69). `Speaker.New` states that length, and
  `SpeakerSizeReplies` shows which query the period size comes from.
- **Computing `left`.** `left` subtracts `avail` from the stored buffer
  size `speaker.0`, which is the value `get_buffer_size` reported
  (src/lib.rs:57, 68, 120). It is not derived from the scratch buffer's
  length.
- **Comparing the write count.** `push` compares what `writei` returns
  with `buffer.len()`, a count of samples (src/lib.rs:100-102, 110-112).
  If the driver counts frames, a stereo write that goes through is
  reported as short. `PushStereoFrameCount` shows the consequence: two
  complete writes end in the double-underrun panic. The `writei` binding
  is not part of this model, so this is stated conditionally rather than
  claimed as a bug.

## Model

| member | source | states |
|---|---|---|
| Alsa.DirectionDiscriminant | src/alsa/mod.rs:3-7 | Playback has discriminant 0 and Capture 1, in declaration order |
| Alsa.ValueOrDiscriminant | src/alsa/mod.rs:13-16 | `Nearest` has the explicit discriminant 0 |
| Alsa.DirectionCases | src/alsa/mod.rs:4-7 | a direction is Playback or Capture, and the two differ |
| Alsa.PlaybackBeforeCapture | src/alsa/mod.rs:3-7 | the derived order puts Playback strictly before Capture |
| Alsa.DirectionLessIsStrictTotal | src/alsa/mod.rs:3-7 | the derived order is irreflexive, transitive and total on distinct values |
| Alsa.DirectionEqualityIsDiscriminant | src/alsa/mod.rs:3-7 | derived equality holds exactly when the variants (discriminants) agree |
| Alsa.ValueOrSingleton | src/alsa/mod.rs:12-16 | there is one search policy: all values equal `Nearest` and none is less than another |
| AlsaError.Wrap | src/alsa/error.rs:17 | two's-complement wrap lands in range and is the identity on values already in range |
| AlsaError.FromI32 | src/alsa/error.rs:24 | a code maps to its named errno exactly when it is non-zero and the platform knows it, otherwise to `UnknownErrno` |
| AlsaError.ErrorNew | src/alsa/error.rs:23-26 | keeps the name verbatim; the errno is known exactly when the code is non-zero and known, and then carries the code |
| AlsaError.ErrorNewEquality | src/alsa/error.rs:9-26 | two built errors are equal iff the names agree and the codes agree or are both unknown |
| AlsaError.NegatedCode | src/alsa/error.rs:17 | `-r as c_int` lands in `c_int`, and equals `-r` for every r from c_int's minimum + 1 up to 0 |
| AlsaError.ACheck | src/alsa/error.rs:14-19 | `Ok` iff r ≥ 0, passing r through unchanged; otherwise `Err(Error::new(name, -r as c_int))` naming the called function |
| AlsaError.ACheckCodePositive | src/alsa/error.rs:17 | for an ordinary negative result the error carries the strictly positive code −r |
| AlsaError.NegatingInt32MinWraps | src/alsa/error.rs:17 | negating c_int's minimum wraps back to that negative value, so the code is not positive |
| AlsaError.Int64CodeTruncatesToZero | src/alsa/error.rs:17 | a 64-bit result of −2^32 truncates to error code 0 |
| AlsaError.Display | src/alsa/error.rs:34-38 | the text is exactly "ALSA function '", the name, "' failed with error '", the errno's description and a closing apostrophe, in that order |
| AlsaError.DisplayNameRoundTrip | src/alsa/error.rs:36 | the function name can be read back out of the rendered message (text between the first two apostrophes) |
| AlsaError.Description | src/alsa/error.rs:30 | always "ALSA error" |
| AlsaError.Cause | src/alsa/error.rs:31 | always `Some`, holding the wrapped nix error |
| AlsaError.IntoFmtErrorForgets | src/alsa/error.rs:40-42 | every error converts to the same `fmt::Error` |
| AlsaDriver.Failure | src/lib.rs:25-36 | an ignored reply never panics; an unwrapped `Err` panics with its error; an `assert_eq!` step passes iff the value matches |
| AlsaDriver.Next | src/lib.rs:25-37 | one step appends its call and its reply and panics iff the step fails, with that step's panic; after a panic nothing changes |
| AlsaDriver.AppendCalls | src/lib.rs:50-75 | a sequence followed by another issues the first's calls, then the second's |
| AlsaDriver.AppendSteps | src/lib.rs:50-75 | a sequence followed by another has the first's steps, then the second's |
| AlsaDriver.ExecFatal | src/lib.rs:25-37 | after a panic no further call is issued |
| AlsaDriver.ExecAppend | src/lib.rs:50-75 | running two sequences in a row is running the second from where the first stopped |
| AlsaDriver.ExecShift | src/lib.rs:50-75 | replies gathered earlier do not influence a sequence's log, replies or outcome |
| AlsaDriver.ExecPhases | src/lib.rs:50-75 | a concatenated sequence is the first one's run and then, unless it panicked, the second's fresh run |
| AlsaDriver.ExecIssuesPrefix | src/lib.rs:25-37 | the calls issued are a prefix of the sequence, one reply each: all when it completes, at least one when it panics |
| AlsaDriver.ExecReplyAt | src/lib.rs:25-37 | each reply is the driver's answer to that step's call, given exactly the calls before it |
| AlsaDriver.ExecCompletedReply | src/lib.rs:25-37 | in a run that goes through, reply i answers the plan's call i given the starting log and the plan's calls before it |
| AlsaDriver.ExecStepPassed | src/lib.rs:25-37 | every step issued before the last, and the last on completion, went through |
| AlsaDriver.ExecLastStepPanics | src/lib.rs:25-37 | a panic comes from the last step issued and is that step's failure on its reply |
| AlsaDriver.ExecCompletedIff | src/lib.rs:25-37 | a sequence completes iff it received one reply per step and no step failed |
| AlsaDriver.ExecCompletedLog | src/lib.rs:25-37 | a completed sequence issued all its calls, in order |
| AlsaDriver.ExecFatalLog | src/lib.rs:25-37 | a panicking sequence issued a non-empty prefix, ending on a step whose reply is checked |
| AdiSpeaker.Channels | src/lib.rs:26 | 2 channels iff stereo, 1 otherwise |
| AdiSpeaker.FormatCode | src/lib.rs:30-34 | format 2 on little-endian and 3 on big-endian |
| AdiSpeaker.SetSettings | src/lib.rs:23-38 | issues the negotiation's calls in order until the first failure; log and outcome are that of `SettingsPlan` |
| AdiSpeaker.SettingsPlanCalls | src/lib.rs:25-37 | the negotiation's calls are any, set_channels, set_rate(48000, Nearest), get_rate, set_format, set_access, hw_params, free |
| AdiSpeaker.SettingsPlanSteps | src/lib.rs:25-37 | every call but the free is unwrapped, and the rate is also compared with 48000 |
| AdiSpeaker.SettingsCompletedLog | src/lib.rs:23-38 | a negotiation that goes through issues exactly the eight calls and frees the parameters exactly once |
| AdiSpeaker.SettingsRateChecked | src/lib.rs:28-29 | a negotiation that goes through read back the rate 48000 |
| AdiSpeaker.SettingsFatalEarly | src/lib.rs:25-36 | a panicking negotiation stops on one of its first seven calls |
| AdiSpeaker.SettingsFatal | src/lib.rs:25-37 | a panicking negotiation issued a proper non-empty prefix of the eight calls and no free |
| AdiSpeaker.AsUsize | src/lib.rs:86 | `as usize` keeps a non-negative value and adds 2^64 to a negative one |
| AdiSpeaker.Outstanding | src/lib.rs:120 | `left` is the stored buffer size minus the reported available frames (exactly so whenever avail ≥ 0) |
| AdiSpeaker.RefillCount | src/lib.rs:86-89 | at most the buffer length; len − left when 0 ≤ left < len; 0 when left ≥ len; 0 for a negative left, for any buffer of at most 2^63 samples, which every allocatable `Vec<i16>` is |
| AdiSpeaker.OverfullRefillsNothing | src/lib.rs:86-89 | a driver reporting more available than the buffer size makes `left` negative and nothing is refilled |
| AdiSpeaker.CountOrZero | src/lib.rs:100-102 | a count passes through; an error counts as 0 |
| AdiSpeaker.PushFullWrite | src/lib.rs:100-103 | a first write reported complete is the only call and `push` completes |
| AdiSpeaker.PushShortWrite | src/lib.rs:100-115 | a short first write is followed by one `recover(32, true)`; its error panics, otherwise the identical buffer is written once more and a short retry panics |
| AdiSpeaker.PushLog | src/lib.rs:100-115 | after the history, `push` issues [write], or [write, recover] when recovery fails, or [write, recover, write] |
| AdiSpeaker.PushCallCounts | src/lib.rs:99-116 | `push` writes only its buffer, once or twice, and recovers at most once, exactly when the first write was short |
| AdiSpeaker.PushCompletedIff | src/lib.rs:100-115 | `push` completes iff the first write is complete, or recovery succeeds and the retry is complete |
| AdiSpeaker.PushStereoFrameCount | src/lib.rs:100-112 | writes reported as half the sample count end in the double-underrun panic after exactly two writes |
| AdiSpeaker.Generator.Call | src/lib.rs:92 | the k-th call of the generator yields `next(k)` |
| AdiSpeaker.SpeakerQueryPlanCalls | src/lib.rs:56-67 | the read-back queries current parameters, buffer size, period size, channels, rate, then frees |
| AdiSpeaker.SpeakerPlanCalls | src/lib.rs:50-72 | `Speaker::new` issues open, the negotiation, the read-back and the prepare, in that order |
| AdiSpeaker.SpeakerCompletedLog | src/lib.rs:50-72 | a `Speaker::new` that goes through issues exactly those 16 calls |
| AdiSpeaker.SpeakerSizeReplies | src/lib.rs:56-62 | in a `Speaker::new` that goes through, the stored buffer size is the driver's answer to `get_buffer_size` and the period size is its answer to `get_period_size`, each given exactly the calls before it |
| AdiSpeaker.SpeakerCallsSizes | src/lib.rs:56-62 | the buffer-size and period-size queries are calls 10 and 11 of the 16 |
| AdiSpeaker.Speaker.Init | src/lib.rs:69-74 | the speaker keeps the buffer size and a fresh zero-filled buffer of the given length |
| AdiSpeaker.Speaker.New | src/lib.rs:47-75 | index ≠ 0 gives `None` without a driver call; otherwise the run follows `SpeakerPlan`, and on success the speaker stores the reported buffer size and a zero-filled buffer of twice the reported period size |
| AdiSpeaker.Speaker.Connect | src/lib.rs:50-70 | open, negotiate and read back; yields the reported buffer size and twice the period size |
| AdiSpeaker.Speaker.Configure | src/lib.rs:53-68 | negotiate, then read back; the sizes are the replies to the buffer-size and period-size queries |
| AdiSpeaker.Speaker.ReadConfiguration | src/lib.rs:55-68 | the read-back unwraps each query, then frees; yields the reported buffer size and twice the reported period size |
| AdiSpeaker.Speaker.Left | src/lib.rs:119-121 | queries the status (an error panics), then the available frames; yields `Outstanding(bufferSize, avail)` |
| AdiSpeaker.Speaker.Push | src/lib.rs:99-116 | the log and outcome are those of `PushRun` on the given buffer |
| AdiSpeaker.Speaker.Update | src/lib.rs:85-96 | calls the generator exactly `RefillCount` times, stores the results in order in the prefix, leaves the rest unchanged and pushes exactly that prefix; a status error panics with nothing changed |
| AdiSpeaker.Speaker.Drop | src/lib.rs:124-128 | the device is closed by one call |
| AdiSpeaker.MicrophoneQueryPlanCalls | src/lib.rs:143-146 | the read-back queries current parameters, channels, rate, then frees |
| AdiSpeaker.MicrophonePlanCalls | src/lib.rs:139-149 | `Microphone::new` issues open, the negotiation, the read-back and the start, in that order |
| AdiSpeaker.MicrophoneCompletedLog | src/lib.rs:139-149 | a `Microphone::new` that goes through issues exactly those 14 calls |
| AdiSpeaker.Microphone.Init | src/lib.rs:151 | the microphone keeps its driver and is open |
| AdiSpeaker.Microphone.New | src/lib.rs:136-152 | index ≠ 0 gives `None` without a driver call; otherwise the run follows `MicrophonePlan` and yields a microphone iff it completes |
| AdiSpeaker.Microphone.ShowConfiguration | src/lib.rs:142-147 | the read-back unwraps each query, then frees |
| AdiSpeaker.Microphone.Update | src/lib.rs:160-162 | one read and nothing else; the count read, or 0 on any error |
| AdiSpeaker.Microphone.Drop | src/lib.rs:165-169 | the device is closed by one call |

## Left out

- The `lazy_static!` global `CONTEXT` and the dynamic loading of the
  driver's symbols. These are process-global initialisation and FFI; the
  abstract `Driver` is passed in instead.
- The `unsafe` foreign call inside `acheck!`. Its result is the input `r`.
- The bodies of `alsa::pcm` and `alsa::Context`. Their calls are oracle
  replies recorded in the log, and their internals are not guessed.
- The samples `readi` stores into the caller's buffer. `Microphone.Update`
  models only the capacity it passes and the count it returns.
- `println!` diagnostics. They are output only; the `unwrap`s inside them
  are kept.
- nix::Error's variants other than `Sys` (`InvalidPath`, `InvalidUtf8`,
  `UnsupportedOperation`). `Error::new` builds its error only through
  `from_errno`, which always yields `Sys`.
- The width of the driver's replies. Every reply is taken to be a
  `Count`, 0 ≤ x < 2^63, because the pcm bindings' return types are not
  part of this model. This is why `period as usize * 2` never wraps and
  `speaker.0` is never negative.
- nix's errno text. It is the uninterpreted `describe` parameter of
  `Display`, and nix's errno table is the `known` parameter.
- `cfg!(target_endian)`. It is the `endian` parameter, so the
  `unreachable!()` branch has no counterpart.
- The `num()` methods, which return the constant 1.
- Overflow checks of a debug build. Arithmetic is that of a release build.
- Where `vec![0i16; latency]` is allocated. `Speaker.Init` allocates it
  together with the speaker, after the prepare call rather than before.
  The driver cannot observe the allocation, and the same zero-filled
  buffer of the same length results.
- Unwinding on a panic: an operation that ends `Fatal` returns no object,
  so no `Drop` runs for it.
- `Drop` is modelled as a method that closes once and clears an `open`
  flag. Rust's rule that it runs exactly once at the end of the object's
  life is not stated.
